# Peaceful Living Home Care site: navigation, header, contact form and phone display

This project models in Dafny the small amount of behaviour in the Peaceful Living
Home Care marketing site. The rest of the site is animated presentation.

- **Navigation** (`navigation.dfy`, from `App.tsx`) covers the application shell.
  - One current page, which starts at Home and is overwritten by every navigation request.
  - A router. Services and Resources get standalone views. Every other page gets the composite
    home view, which holds the hero, path, about and contact sections.
  - A scroll effect.
    - Home, Services and Resources scroll to the top at once.
    - About and Contact schedule a deferred lookup of `about-section` or `contact-section`. The
      viewport scrolls only if that element is found.
  - The `App` class keeps the page, the pending lookup timers and the log of viewport movements.
    Its methods are specified by the pure transition functions `Navigate` and `Fire`.
  - Scrolls are abstract values: `Top`, `Anchor(id)` and `NoScroll`. The 100 ms timer is a
    separate, later `TimerFires` step.
  - A run is a sequence of clicks on the on-screen controls and timer firings.
    `RunStaysOnCompositeHome` proves three things about every run:
    - the page never becomes Services or Resources;
    - the composite view stays rendered;
    - no deferred lookup ever misses.
  - `Navigation.Scenario` is a client of the `App` class. It starts at Home, requests Contact, lets the
    timer fire, then requests Services, and asserts the page, the view and the scroll log after each step.
- **Header** (`header.dfy`, from `components/Header.tsx`) is a pure function of the current page
  value.
  - It renders the navigation bar `home`, `about`, `contact`.
  - It highlights the button equal to the current value.
  - It captions the contact button "Contact Us".
  - It fixes which page values the logo, the bar and "Get Care Plan" request.
- **ContactForm** (`contact_form.dfy`, from `components/ContactSection.tsx`) is the request form's
  status machine: `Idle`, `Sending`, `Success`.
  - The `ContactSection` class updates the status from the submit handler, the 1500 ms completion
    timer and the "Send another" button.
  - It also counts the pending completion timers. The invariant "one timer pending exactly while
    sending" is what rules out a direct idle → success step.
- **Footer** (`footer.dfy`, from `components/Footer.tsx`) shows the phone number with every `-`
  replaced by `.`.

Notes on the source:
- `types.ts` declares only `Home`, `About` and `Contact`. `App.tsx` also branches on
  `Page.Services` and `Page.Resources`. The model follows `App.tsx` and uses five pages. No
  control ever requests the other two, and `RunStaysOnCompositeHome` shows that they are never
  reached, so those branches make no observable difference.
- `setCurrentPage` with an unchanged value does not re-render. So the effect, which depends only
  on `currentPage`, does not run again, and re-selecting the current page scrolls nothing
  (`ReselectIsNoOp`). A "navigate twice scrolls twice" reading does not match the code.
- The deferred lookup timers are never cleared. A lookup that fires after the page has moved to a
  standalone view misses (`StandaloneLookupMisses`). The "Get Started" buttons of the standalone
  Services view look up `contact-section` in the same way, and that lookup always misses.
- The form has no sending → idle path. Only "Send another" returns to idle, and only from success.

## Model

| member | source | states |
|---|---|---|
| Footer.DotSeparated | components/Footer.tsx:16 | same length; each position is `.` where the input had `-` and is kept otherwise; no `-` remains |
| Footer.NonHyphensKept | components/Footer.tsx:16 | every non-hyphen character stays at its position |
| Footer.DotExactlyWhereHyphenOrDot | components/Footer.tsx:16 | an output position is `.` iff the input had `-` or `.` there |
| Footer.DotSeparatedIdempotent | components/Footer.tsx:16 | applying the replacement twice equals applying it once |
| Footer.NoHyphenUnchanged | components/Footer.tsx:16 | text without hyphens is shown unchanged |
| Footer.DotSeparatedPointwise | components/Footer.tsx:16 | any text with a dot at each hyphen of the input and the input's character elsewhere is exactly the displayed form |
| Footer.FooterPhone | constants.tsx:6 | the stored number `317-600-7994` is shown as `317.600.7994` |
| Header.Buttons | components/Header.tsx:35-45 | one button per item in order; each requests its own item; highlighted iff the item equals the current page value |
| Header.NavBarOrder | components/Header.tsx:35-38 | the bar requests exactly `home`, `about`, `contact`, in that order |
| Header.HighlightIff | components/Header.tsx:39-44 | a bar button is highlighted iff the current page value is its own |
| Header.AtMostOneHighlighted | components/Header.tsx:39-44 | two highlighted buttons are the same button |
| Header.NoneHighlightedOffBar | components/Header.tsx:39-44 | a current value outside the bar highlights no button |
| Header.LabelRule | components/Header.tsx:43 | the bar's captions are `home`, `about`, `Contact Us` |
| Header.CallToActionRequests | components/Header.tsx:16-63 | the logo requests `home` and "Get Care Plan" requests `contact` |
| Header.RequestsStayOnBar | components/Header.tsx:18-59 | every request the header can issue is one of the bar's page values |
| Navigation.PageNamed | types.ts:8-12 | a value that names a page is that page's value |
| Navigation.PageValueRoundTrip | types.ts:8-12 | each page's value names that page back |
| Navigation.Anchors | pages/Home.tsx:23-40 | the `about-section` and `contact-section` anchors exist exactly when the composite home view is rendered |
| Navigation.Route | App.tsx:40-49 | Services goes to the Services view, Resources to the Resources view, every other page to the composite home view |
| Navigation.App.constructor | App.tsx:11-21 | mounting starts at Home with one scroll to the top and nothing pending |
| Navigation.App.RunEffect | App.tsx:17-38 | the effect scrolls to the top for Home, Services and Resources, and schedules a lookup of the page's anchor for About and Contact |
| Navigation.App.HandlePageChange | App.tsx:13-15 | the page becomes exactly the requested one; the effect runs only when the value changed |
| Navigation.App.TimerElapsed | App.tsx:24-36 | the oldest pending lookup fires: it scrolls to its anchor if the rendered view has it and records no scroll otherwise |
| Navigation.InitialIsHome | App.tsx:11-48 | start-up shows the composite home view, scrolled to the top, with nothing pending |
| Navigation.NavigateSetsPage | App.tsx:13-15 | after a request the page is exactly the requested one |
| Navigation.NavigateIdempotent | App.tsx:13-38 | requesting a page twice gives the same state as requesting it once |
| Navigation.ReselectIsNoOp | App.tsx:17-38 | re-selecting the current page schedules and performs no scroll |
| Navigation.TopPagesScrollToTop | App.tsx:18-21 | moving to Home, Services or Resources adds one scroll to the top and schedules nothing |
| Navigation.AnchorPagesDefer | App.tsx:22-37 | moving to About or Contact scrolls nothing at once and schedules one lookup of `about-section` or `contact-section` |
| Navigation.EffectExclusive | App.tsx:17-38 | each page selects exactly one of scroll-to-top or deferred lookup |
| Navigation.MissingAnchorNoScroll | App.tsx:24-36 | a lookup whose element is absent gives no scroll and no error |
| Navigation.DeferredTargetRendered | App.tsx:22-48 | on About or Contact the rendered view holds the anchor the effect looks up, so the lookup lands |
| Navigation.NavigateThenFire | App.tsx:22-37 | from a state with nothing pending, requesting About or Contact and letting the timer fire scrolls to that page's anchor and leaves nothing pending |
| Navigation.FireTimesDrains | App.tsx:24-36 | firing n pending lookups in a row removes the n oldest, keeps the page and the earlier log, and logs each lookup's outcome against the current view, oldest first |
| Navigation.NavigateThenFireAll | App.tsx:22-37 | requesting About or Contact with older lookups pending: after all of them and the new one fire, the older ones are logged in order, the last movement is to the requested anchor and nothing is pending |
| Navigation.StandaloneLookupMisses | App.tsx:40-46 | any section-anchor lookup while a standalone view is rendered gives no scroll |
| Navigation.HeaderHighlightsCurrentPage | App.tsx:53-56 | the header highlights the current page's own button on Home, About or Contact and nothing on a standalone page |
| Navigation.ClicksRequestDeclaredPages | pages/Home.tsx:24-30 | every click on a header control or a home call to action requests Home, About or Contact |
| Navigation.RunFromReachable | App.tsx:13-38 | from a reachable state, every run keeps the page among Home, About and Contact, all pending lookups on section anchors, and no missed scroll |
| Navigation.RunStaysOnCompositeHome | App.tsx:11-49 | every run from start-up stays on the composite home view and no deferred lookup misses |
| ContactForm.SubmitCaption | components/ContactSection.tsx:136 | the button reads `Sending...` iff the status is sending |
| ContactForm.ContactSection.constructor | components/ContactSection.tsx:12 | the status starts idle with no timer pending |
| ContactForm.ContactSection.HandleSubmit | components/ContactSection.tsx:14-18 | a submit fires only when the form is shown, enabled and filled; it then sets sending and schedules one completion timer |
| ContactForm.ContactSection.TimerElapsed | components/ContactSection.tsx:17 | a pending completion timer sets success |
| ContactForm.ContactSection.SendAnotherClicked | components/ContactSection.tsx:127 | "Send another", present only in success, sets idle |
| ContactForm.InitialIdle | components/ContactSection.tsx:12 | start-up is idle with the form shown and the button enabled |
| ContactForm.StepKeepsConsistent | components/ContactSection.tsx:14-18 | every event keeps exactly one timer pending while sending and none otherwise |
| ContactForm.RunKeepsConsistent | components/ContactSection.tsx:12-18 | every run keeps that timer invariant |
| ContactForm.SubmitThenTimer | components/ContactSection.tsx:14-18 | a filled submit from idle gives sending, and the timer then gives success with nothing pending |
| ContactForm.MissingFieldBlocksSubmit | components/ContactSection.tsx:131-134 | a submit with an empty required field changes nothing |
| ContactForm.NoSubmitWhileSending | components/ContactSection.tsx:135-136 | while sending the button is disabled, so a submit changes nothing, and it reads `Sending...` |
| ContactForm.SendAnotherResets | components/ContactSection.tsx:120-130 | "Send another" turns success into idle and brings the form back |
| ContactForm.StepFollowsCycle | components/ContactSection.tsx:14-18 | every status change is idle → sending, sending → success or success → idle; never idle → success |
| ContactForm.ReachableStepsFollowCycle | components/ContactSection.tsx:12-18 | the cycle holds for every step of every run from start-up |
| ContactForm.EntriesAreGuarded | components/ContactSection.tsx:130-135 | success is entered only from sending by the timer; sending only by a submit with every field filled |

## Left out

- GSAP and ScrollTrigger animation in every component: these are timelines, easing curves and scroll-driven rendering in a foreign library with floating-point parameters.
- The count-up in `components/CounterHeroBar.tsx`: it uses floating-point easing, interval frames and an intersection observer.
- `pages/Contact.tsx`: it wraps a third-party form hook whose state is not visible, and `App.tsx` never renders it.
- The card flip and hover flags in `pages/Services.tsx`: they only drive animation. Its anchor lookups appear only as the consequence stated by `Navigation.StandaloneLookupMisses`.
- Static copy and markup: the About, Resources, Hero, AboutSection, PeacefulPath, VideoShowcase and TrustRibbon views, the icons and the service list.
- Real viewport and document calls (`window.scrollTo`, `scrollIntoView`, `getElementById`) and the timer durations: they become abstract scroll values and explicit timer events. Smooth easing is not modelled.
- Navigation.Anchors: only the section anchors of the main view are tracked. Other element ids, such as the logo's gradient id `header-logo-identity` on every view, are not modelled, so `StandaloneLookupMisses` speaks of section anchors only.
- Navigation.PageValue: the values `services` and `resources` are placeholders. `types.ts` declares no such members, so at runtime `Page.Services` and `Page.Resources` are both `undefined`. No control can request them, so this difference is never observed.
- Timer ordering: pending lookups fire oldest first, since all of them use the same delay.
- ContactForm.ContactSection.HandleSubmit: only the four inputs' non-emptiness is modelled. The browser's extra syntax check on the email input is left out because it is foreign validation.
- Unmounting the contact section while a completion timer is pending is not modelled. A later remount starts idle. The runs of `Navigation.RunStaysOnCompositeHome` never leave the composite view, so it never unmounts there.
- React development-mode double effects and render scheduling are not modelled. A page change and its effect are one step.
