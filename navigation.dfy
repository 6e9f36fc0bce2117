/**
 * The application shell: one current-page value, a router that picks the
 * main view from it, and an effect that moves the viewport whenever the
 * value changes. Viewport movements are recorded as abstract actions; the
 * 100 ms deferred anchor lookup is a pending timer that fires as a separate,
 * later step.
 */
module Navigation {
  import opened Wrappers
  import Header

  /** The destinations the shell branches on. */
  datatype Page = Home | About | Services | Resources | Contact

  /** The string value a page carries; the header compares and requests these. */
  function PageValue(p: Page): string {
    match p
    case Home => "home"
    case About => "about"
    case Services => "services"
    case Resources => "resources"
    case Contact => "contact"
  }

  /** The page whose value is `s`, if any. */
  function PageNamed(s: string): (r: Option<Page>)
    ensures r.Some? ==> PageValue(r.value) == s
  {
    if s == "home" then Some(Home)
    else if s == "about" then Some(About)
    else if s == "services" then Some(Services)
    else if s == "resources" then Some(Resources)
    else if s == "contact" then Some(Contact)
    else None
  }

  /** Distinct pages carry distinct values, so a value names its page back. */
  lemma PageValueRoundTrip(p: Page)
    ensures PageNamed(PageValue(p)) == Some(p)
  {
  }

  /** What the main area shows. */
  datatype View = CompositeHome | ServicesView | ResourcesView

  /** The router: Services and Resources get their own views and every other
      page the composite home view. */
  function Route(p: Page): (v: View)
    ensures v == ServicesView <==> p == Services
    ensures v == ResourcesView <==> p == Resources
    ensures v == CompositeHome <==> p != Services && p != Resources
  {
    if p == Services then ServicesView
    else if p == Resources then ResourcesView
    else CompositeHome
  }

  const AboutAnchor: string := "about-section"
  const ContactAnchor: string := "contact-section"

  /** The element identities of section anchors present in a rendered view. */
  function Anchors(v: View): (r: set<string>)
    ensures AboutAnchor in r <==> v == CompositeHome
    ensures ContactAnchor in r <==> v == CompositeHome
  {
    match v
    case CompositeHome => {"home-section", "path-section", AboutAnchor, ContactAnchor}
    case ServicesView => {}
    case ResourcesView => {}
  }

  /** What the effect does once the current page has taken a new value. */
  datatype Effect = ScrollToTop | DeferLookup(anchor: string)

  /** The scroll policy, one action per page. */
  function EffectOf(p: Page): Effect {
    match p
    case Home => ScrollToTop
    case Services => ScrollToTop
    case Resources => ScrollToTop
    case About => DeferLookup(AboutAnchor)
    case Contact => DeferLookup(ContactAnchor)
  }

  /** A movement of the viewport: to the top, to an anchor, or none at all. */
  datatype Scroll = Top | Anchor(id: string) | NoScroll

  /** A deferred lookup of `anchor` in view `v`: it scrolls there when the
      element exists and does nothing otherwise. */
  function Lookup(anchor: string, v: View): Scroll {
    if anchor in Anchors(v) then Anchor(anchor) else NoScroll
  }

  /** The observable state: the current page, the anchors of deferred lookups
      scheduled and not yet fired (oldest first), and every viewport movement
      so far, in order. */
  datatype NavState = NavState(page: Page, timers: seq<string>, scrolls: seq<Scroll>)

  /** Start-up: the page is Home and the effect's first run scrolls to the top. */
  const Initial: NavState := NavState(Home, [], [Top])

  /** Applying the effect for the page just committed. */
  function AfterEffect(s: NavState): NavState {
    match EffectOf(s.page)
    case ScrollToTop => s.(scrolls := s.scrolls + [Top])
    case DeferLookup(a) => s.(timers := s.timers + [a])
  }

  /** A navigation request: the page takes the requested value; the effect runs
      only when that value differs from the current one. */
  function Navigate(s: NavState, p: Page): NavState {
    if p == s.page then s else AfterEffect(s.(page := p))
  }

  /** The oldest pending deferred lookup fires against the view rendered now. */
  function Fire(s: NavState): NavState {
    if s.timers == [] then s
    else s.(timers := s.timers[1..], scrolls := s.scrolls + [Lookup(s.timers[0], Route(s.page))])
  }

  /** The shell as the source keeps it: a page field overwritten by the
      setter, with the effect's pending timers and viewport movements. */
  class App {
    var currentPage: Page
    var timers: seq<string>
    var scrolls: seq<Scroll>

    function State(): NavState
      reads this
    {
      NavState(currentPage, timers, scrolls)
    }

    /** Mounting renders Home and runs the effect once. */
    constructor ()
      ensures State() == Initial
    {
      currentPage := Home;
      timers := [];
      scrolls := [Top];
    }

    /** The main view for the current page. */
    function RenderPage(): View
      reads this
    {
      Route(currentPage)
    }

    /** The effect body, run after a commit that changed the page. */
    method RunEffect()
      modifies this
      ensures State() == AfterEffect(old(State()))
    {
      if currentPage == Home {
        scrolls := scrolls + [Top];
      } else if currentPage == Services || currentPage == Resources {
        scrolls := scrolls + [Top];
      } else if currentPage == About {
        timers := timers + [AboutAnchor];
      } else if currentPage == Contact {
        timers := timers + [ContactAnchor];
      }
    }

    /** Setting the page; an unchanged value commits nothing and runs no effect. */
    method HandlePageChange(p: Page)
      modifies this
      ensures State() == Navigate(old(State()), p)
      ensures currentPage == p
    {
      if p != currentPage {
        currentPage := p;
        RunEffect();
      }
    }

    /** The oldest deferred lookup fires, if one is pending. */
    method TimerElapsed() returns (fired: bool)
      modifies this
      ensures fired == (old(timers) != [])
      ensures State() == Fire(old(State()))
    {
      fired := timers != [];
      if fired {
        var anchor := timers[0];
        timers := timers[1..];
        if anchor in Anchors(RenderPage()) {
          scrolls := scrolls + [Anchor(anchor)];
        } else {
          scrolls := scrolls + [NoScroll];
        }
      }
    }
  }

  // ---- Properties of the shell ----

  /** Start-up shows the composite home view at the top. */
  lemma InitialIsHome()
    ensures Initial.page == Home && Route(Initial.page) == CompositeHome
    ensures Initial.scrolls == [Top] && Initial.timers == []
  {
  }

  /** A request sets the page to exactly the requested one. */
  lemma NavigateSetsPage(s: NavState, p: Page)
    ensures Navigate(s, p).page == p
  {
  }

  /** Requesting the same page twice leaves the state of requesting it once. */
  lemma NavigateIdempotent(s: NavState, p: Page)
    ensures Navigate(Navigate(s, p), p) == Navigate(s, p)
  {
  }

  /** Re-selecting the current page schedules and performs nothing. */
  lemma ReselectIsNoOp(s: NavState)
    ensures Navigate(s, s.page) == s
  {
  }

  /** Home, Services and Resources scroll to the top at once, and nothing else. */
  lemma TopPagesScrollToTop(s: NavState, p: Page)
    requires p in {Home, Services, Resources} && p != s.page
    ensures Navigate(s, p) == NavState(p, s.timers, s.scrolls + [Top])
  {
  }

  /** About and Contact scroll nothing at once and schedule one lookup of their anchor. */
  lemma AnchorPagesDefer(s: NavState, p: Page)
    requires p in {About, Contact} && p != s.page
    ensures Navigate(s, p) == NavState(p, s.timers + [if p == About then AboutAnchor else ContactAnchor], s.scrolls)
  {
  }

  /** Each page selects exactly one of the two effect kinds. */
  lemma EffectExclusive(p: Page)
    ensures EffectOf(p).ScrollToTop? <==> p in {Home, Services, Resources}
    ensures EffectOf(p).DeferLookup? <==> p in {About, Contact}
  {
  }

  /** A lookup whose anchor is absent gives no scroll (and no error). */
  lemma MissingAnchorNoScroll(anchor: string, v: View)
    requires anchor !in Anchors(v)
    ensures Lookup(anchor, v) == NoScroll
  {
  }

  /** Whenever the page is About or Contact, the rendered view holds the anchor
      its effect looks up, so the deferred lookup lands. */
  lemma DeferredTargetRendered(p: Page)
    requires p in {About, Contact}
    ensures EffectOf(p).DeferLookup?
    ensures Lookup(EffectOf(p).anchor, Route(p)) == Anchor(EffectOf(p).anchor)
  {
  }

  /** Requesting About or Contact with nothing pending and then letting the
      timer fire scrolls to that page's anchor. */
  lemma NavigateThenFire(s: NavState, p: Page)
    requires p in {About, Contact} && p != s.page && s.timers == []
    ensures Fire(Navigate(s, p)).page == p
    ensures Fire(Navigate(s, p)).timers == []
    ensures Fire(Navigate(s, p)).scrolls == s.scrolls + [Anchor(if p == About then AboutAnchor else ContactAnchor)]
  {
  }

  /** `n` timer firings in a row. */
  function FireTimes(s: NavState, n: nat): NavState
    decreases n
  {
    if n == 0 then s else Fire(FireTimes(s, n - 1))
  }

  /** Firing `n` pending lookups, oldest first, while the page stays put: each
      one adds its own lookup against the current view to the log. */
  lemma {:induction false} FireTimesDrains(s: NavState, n: nat)
    requires n <= |s.timers|
    ensures FireTimes(s, n).page == s.page
    ensures FireTimes(s, n).timers == s.timers[n..]
    ensures |FireTimes(s, n).scrolls| == |s.scrolls| + n
    ensures FireTimes(s, n).scrolls[..|s.scrolls|] == s.scrolls
    ensures forall k :: 0 <= k < n ==> FireTimes(s, n).scrolls[|s.scrolls| + k] == Lookup(s.timers[k], Route(s.page))
  {
    if n > 0 {
      FireTimesDrains(s, n - 1);
      var t := FireTimes(s, n - 1);
      assert t.timers[0] == s.timers[n - 1];
      assert t.timers[1..] == s.timers[n..];
    }
  }

  /** Requesting About or Contact while older lookups are still pending: once
      every pending timer and the new one have fired, the older lookups have
      landed in the order they were scheduled, the last movement is to the
      requested page's anchor, and nothing is pending. */
  lemma NavigateThenFireAll(s: NavState, p: Page)
    requires p in {About, Contact} && p != s.page
    ensures var t := FireTimes(Navigate(s, p), |s.timers| + 1);
      && t.page == p
      && t.timers == []
      && |t.scrolls| == |s.scrolls| + |s.timers| + 1
      && t.scrolls[..|s.scrolls|] == s.scrolls
      && (forall k :: 0 <= k < |s.timers| ==> t.scrolls[|s.scrolls| + k] == Lookup(s.timers[k], CompositeHome))
      && t.scrolls[|t.scrolls| - 1] == Anchor(if p == About then AboutAnchor else ContactAnchor)
  {
    var u := Navigate(s, p);
    var a := if p == About then AboutAnchor else ContactAnchor;
    assert u == NavState(p, s.timers + [a], s.scrolls);
    FireTimesDrains(u, |s.timers| + 1);
    var t := FireTimes(u, |s.timers| + 1);
    forall k | 0 <= k < |s.timers|
      ensures t.scrolls[|s.scrolls| + k] == Lookup(s.timers[k], CompositeHome)
    {
      assert u.timers[k] == s.timers[k];
    }
    assert u.timers[|s.timers|] == a;
    assert t.scrolls[|s.scrolls| + |s.timers|] == Lookup(a, CompositeHome);
  }

  /** A lookup that fires after the page has moved to a standalone view misses:
      the timer is never cancelled, and those views hold no section anchors.
      The same holds for the "Get Started" buttons of the standalone Services
      view, which look up the contact anchor. */
  lemma StandaloneLookupMisses(anchor: string, p: Page)
    requires p in {Services, Resources}
    ensures Lookup(anchor, Route(p)) == NoScroll
  {
  }

  /** The header receives the page's value; on a standalone page none of its
      buttons is highlighted, on Home, About or Contact exactly its own is. */
  lemma HeaderHighlightsCurrentPage(p: Page, i: nat)
    requires i < |Header.NavItems|
    ensures Header.NavBar(PageValue(p))[i].highlighted <==> p != Services && p != Resources && Header.NavItems[i] == PageValue(p)
  {
    Header.HighlightIff(PageValue(p), i);
  }

  // ---- Runs driven by the controls on screen ----

  /** A control a visitor can click: one of the header's, or one of the two
      "contact" calls to action inside the composite home view. */
  datatype Control = InHeader(h: Header.Control) | HeroCallToAction | PathCallToAction

  /** The page a click requests in state `s`, or None when the control is not
      on screen. */
  function RequestOf(c: Control, s: NavState): Option<Page> {
    match c
    case InHeader(h) =>
      var r := Header.Request(h, PageValue(s.page));
      if r.Some? then PageNamed(r.value) else None
    case HeroCallToAction => if Route(s.page) == CompositeHome then Some(Contact) else None
    case PathCallToAction => if Route(s.page) == CompositeHome then Some(Contact) else None
  }

  /** What can happen next: a click, or the oldest pending timer firing. */
  datatype Event = Click(c: Control) | TimerFires

  function Step(s: NavState, e: Event): NavState {
    match e
    case Click(c) =>
      var r := RequestOf(c, s);
      if r.Some? then Navigate(s, r.value) else s
    case TimerFires => Fire(s)
  }

  function Run(s: NavState, events: seq<Event>): NavState
    decreases |events|
  {
    if events == [] then s else Run(Step(s, events[0]), events[1..])
  }

  /** The invariant of every state the controls can reach: the page is one the
      header can request, every pending lookup targets a section anchor, and
      no lookup has ever missed. */
  ghost predicate Reachable(s: NavState) {
    && s.page in {Home, About, Contact}
    && (forall i :: 0 <= i < |s.timers| ==> s.timers[i] in {AboutAnchor, ContactAnchor})
    && NoScroll !in s.scrolls
  }

  /** Every click requests Home, About or Contact. */
  lemma ClicksRequestDeclaredPages(c: Control, s: NavState)
    requires RequestOf(c, s).Some?
    ensures RequestOf(c, s).value in {Home, About, Contact}
  {
    if c.InHeader? {
      Header.RequestsStayOnBar(c.h, PageValue(s.page));
    }
  }

  lemma StepKeepsReachable(s: NavState, e: Event)
    requires Reachable(s)
    ensures Reachable(Step(s, e))
  {
    match e
    case Click(c) =>
      if RequestOf(c, s).Some? {
        ClicksRequestDeclaredPages(c, s);
      }
    case TimerFires =>
      if s.timers != [] {
        var t := Fire(s);
        assert t.scrolls == s.scrolls + [Anchor(s.timers[0])];
        assert forall i :: 0 <= i < |t.timers| ==> t.timers[i] == s.timers[i + 1];
      }
  }

  /** However a visitor clicks and however the timers interleave, the page
      never becomes Services or Resources, the composite view stays rendered
      and no deferred lookup misses its anchor. */
  lemma {:induction false} RunStaysOnCompositeHome(events: seq<Event>)
    ensures Reachable(Run(Initial, events))
    ensures Route(Run(Initial, events).page) == CompositeHome
  {
    RunFromReachable(Initial, events);
  }

  lemma {:induction false} RunFromReachable(s: NavState, events: seq<Event>)
    requires Reachable(s)
    ensures Reachable(Run(s, events))
    decreases |events|
  {
    if events != [] {
      StepKeepsReachable(s, events[0]);
      RunFromReachable(Step(s, events[0]), events[1..]);
    }
  }

  /** The end-to-end scenario: start at Home, request Contact and let the timer
      fire, then request Services. */
  method Scenario()
  {
    var app := new App();
    app.HandlePageChange(Contact);
    assert app.currentPage == Contact && app.timers == [ContactAnchor];
    var fired := app.TimerElapsed();
    assert fired && app.scrolls == [Top, Anchor(ContactAnchor)];
    app.HandlePageChange(Services);
    assert app.RenderPage() == ServicesView;
    assert app.scrolls == [Top, Anchor(ContactAnchor), Top];
  }
}
