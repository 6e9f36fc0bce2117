/**
 * The site header: a logo, a navigation bar built from a fixed list of page
 * values, and a "Get Care Plan" button. It is a stateless function of the
 * current page value it is given; it only reports navigation requests.
 */
module Header {
  import opened Wrappers

  /** The page values the navigation bar shows, in display order. */
  const NavItems: seq<string> := ["home", "about", "contact"]

  /** What one rendered navigation button does and looks like. */
  datatype NavButton = NavButton(requests: string, caption: string, highlighted: bool)

  /** The caption of the button for a page value. */
  function Label(item: string): (r: string)
    ensures item == "contact" ==> r == "Contact Us"
    ensures item != "contact" ==> r == item
  {
    if item == "contact" then "Contact Us" else item
  }

  /** One button per item, in order; an item is highlighted (accent colour and
      full underline) exactly when it equals the current page value. */
  function Buttons(items: seq<string>, currentPage: string): (r: seq<NavButton>)
    ensures |r| == |items|
    ensures forall i :: 0 <= i < |items| ==>
      r[i].requests == items[i] && r[i].caption == Label(items[i]) &&
      (r[i].highlighted <==> items[i] == currentPage)
  {
    if items == [] then []
    else [NavButton(items[0], Label(items[0]), items[0] == currentPage)] + Buttons(items[1..], currentPage)
  }

  /** The navigation bar for the current page value. */
  function NavBar(currentPage: string): seq<NavButton> {
    Buttons(NavItems, currentPage)
  }

  /** The header's clickable controls; `NavButtonAt(i)` is the i-th button of the bar. */
  datatype Control = Logo | NavButtonAt(index: nat) | CarePlan

  /** The page value a click on `c` requests, or None when there is no such control. */
  function Request(c: Control, currentPage: string): Option<string> {
    match c
    case Logo => Some("home")
    case CarePlan => Some("contact")
    case NavButtonAt(i) => if i < |NavItems| then Some(NavBar(currentPage)[i].requests) else None
  }

  /** The bar shows home, about and contact, in that order, each button
      requesting its own page value. */
  lemma NavBarOrder(currentPage: string)
    ensures |NavBar(currentPage)| == 3
    ensures NavBar(currentPage)[0].requests == "home"
    ensures NavBar(currentPage)[1].requests == "about"
    ensures NavBar(currentPage)[2].requests == "contact"
  {
  }

  /** Each button is highlighted exactly when the current page value is its own. */
  lemma HighlightIff(currentPage: string, i: nat)
    requires i < |NavItems|
    ensures NavBar(currentPage)[i].highlighted <==> currentPage == NavItems[i]
  {
  }

  /** At most one button is highlighted. */
  lemma AtMostOneHighlighted(currentPage: string, i: nat, j: nat)
    requires i < |NavBar(currentPage)| && j < |NavBar(currentPage)|
    requires NavBar(currentPage)[i].highlighted && NavBar(currentPage)[j].highlighted
    ensures i == j
  {
  }

  /** A page value outside the bar (a standalone page) highlights nothing. */
  lemma NoneHighlightedOffBar(currentPage: string, i: nat)
    requires currentPage !in NavItems
    requires i < |NavBar(currentPage)|
    ensures !NavBar(currentPage)[i].highlighted
  {
  }

  /** The contact button reads "Contact Us"; the others show their page value. */
  lemma LabelRule(currentPage: string)
    ensures NavBar(currentPage)[2].caption == "Contact Us"
    ensures NavBar(currentPage)[0].caption == "home" && NavBar(currentPage)[1].caption == "about"
  {
  }

  /** The logo requests home and "Get Care Plan" requests contact. */
  lemma CallToActionRequests(currentPage: string)
    ensures Request(Logo, currentPage) == Some("home")
    ensures Request(CarePlan, currentPage) == Some("contact")
  {
  }

  /** Every request the header can issue is one of the bar's page values, so
      no header control ever asks for a standalone page. */
  lemma RequestsStayOnBar(c: Control, currentPage: string)
    requires Request(c, currentPage).Some?
    ensures Request(c, currentPage).value in NavItems
  {
  }
}
