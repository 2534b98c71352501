/**
 * The navigation panel (src/components/layout/Sidebar.tsx): two static tables
 * of links rendered in order, main first, and an entry is highlighted iff the
 * active path equals its href exactly.
 */
module Sidebar {
  import opened Wrappers

  /** A navigation entry (`NavItem`); the icon is presentation and is not modelled. */
  datatype NavItem = NavItem(href: string, caption: string)

  const MainNavigationItems: seq<NavItem> := [
    NavItem("/dashboard", "Dashboard"),
    NavItem("/leads", "Leads"),
    NavItem("/customers", "Customers"),
    NavItem("/proposals", "Proposals"),
    NavItem("/invoices", "Invoices"),
    NavItem("/items", "Items"),
    NavItem("/mail", "Mail"),
    NavItem("/shoebox", "Shoebox"),
    NavItem("/calendar", "Calendar")
  ]

  const SecondaryNavigationItems: seq<NavItem> := [
    NavItem("/help", "Help"),
    NavItem("/settings", "Settings"),
    NavItem("/support", "Support")
  ]

  /** Every entry, in rendering order. */
  const AllItems: seq<NavItem> := MainNavigationItems + SecondaryNavigationItems

  /** The path used when the caller passes none. */
  const DefaultActivePath: string := "/dashboard"

  /** One rendered link: `aria-current` is "page" on the active link and absent elsewhere. */
  datatype NavLink = NavLink(item: NavItem, isActive: bool, ariaCurrent: Option<string>, hasClickHandler: bool)

  /** `NavLink`: the active flag decides the `aria-current` attribute. */
  function RenderNavLink(item: NavItem, isActive: bool, hasClickHandler: bool): (link: NavLink)
    ensures link.item == item && link.isActive == isActive && link.hasClickHandler == hasClickHandler
    ensures link.ariaCurrent == Some("page") <==> isActive
    ensures link.ariaCurrent.None? <==> !isActive
  {
    NavLink(item, isActive, if isActive then Some("page") else None, hasClickHandler)
  }

  /** `items.map(item => <NavLink isActive={activePath === item.href} ... />)`. */
  function RenderGroup(items: seq<NavItem>, activePath: string, hasClickHandler: bool): (links: seq<NavLink>)
    ensures |links| == |items|
    ensures forall i :: 0 <= i < |links| ==>
      links[i] == RenderNavLink(items[i], activePath == items[i].href, hasClickHandler)
  {
    seq(|items|, i requires 0 <= i < |items| => RenderNavLink(items[i], activePath == items[i].href, hasClickHandler))
  }

  /**
   * The whole panel for an optional `activePath` (defaulting to '/dashboard')
   * and an optional `onLinkClick` handler: every entry once, the main table in
   * order then the secondary table in order, each active iff its href equals
   * the path.
   */
  function RenderSidebar(activePath: Option<string>, hasLinkHandler: bool): (links: seq<NavLink>)
    ensures |links| == |AllItems| == 12
    ensures forall i :: 0 <= i < |links| ==> links[i].item == AllItems[i] && links[i].hasClickHandler == hasLinkHandler
    ensures forall i :: 0 <= i < |links| ==>
      (links[i].isActive <==> AllItems[i].href == activePath.GetOr(DefaultActivePath))
    ensures forall i :: 0 <= i < |links| ==> (links[i].ariaCurrent == Some("page") <==> links[i].isActive)
  {
    var path := activePath.GetOr(DefaultActivePath);
    RenderGroup(MainNavigationItems, path, hasLinkHandler) + RenderGroup(SecondaryNavigationItems, path, hasLinkHandler)
  }

  predicate HrefsDistinct(items: seq<NavItem>) {
    forall i, j :: 0 <= i < j < |items| ==> items[i].href != items[j].href
  }

  /** The twelve hrefs of the two tables are pairwise distinct. */
  lemma AllHrefsDistinct()
    ensures HrefsDistinct(AllItems)
  {
  }

  /** Whatever the path, at most one entry of the panel is highlighted. */
  lemma AtMostOneActive(activePath: Option<string>, hasLinkHandler: bool, i: nat, j: nat)
    requires i < 12 && j < 12
    requires RenderSidebar(activePath, hasLinkHandler)[i].isActive
    requires RenderSidebar(activePath, hasLinkHandler)[j].isActive
    ensures i == j
  {
    AllHrefsDistinct();
  }

  /** A path that is one of the hrefs highlights exactly that entry. */
  lemma KnownPathActivatesItsEntry(activePath: string, hasLinkHandler: bool, k: nat)
    requires k < 12 && AllItems[k].href == activePath
    ensures forall i :: 0 <= i < 12 ==> (RenderSidebar(Some(activePath), hasLinkHandler)[i].isActive <==> i == k)
  {
    AllHrefsDistinct();
  }

  /** Without a path, exactly the Dashboard entry is highlighted. */
  lemma DefaultPathActivatesDashboard(hasLinkHandler: bool)
    ensures forall i :: 0 <= i < 12 ==> (RenderSidebar(None, hasLinkHandler)[i].isActive <==> i == 0)
    ensures AllItems[0].caption == "Dashboard"
  {
    KnownPathActivatesItsEntry(DefaultActivePath, hasLinkHandler, 0);
    assert RenderSidebar(None, hasLinkHandler) == RenderSidebar(Some(DefaultActivePath), hasLinkHandler);
  }

  /** A path that is none of the hrefs highlights nothing. */
  lemma UnknownPathActivatesNothing(activePath: string, hasLinkHandler: bool)
    requires forall k :: 0 <= k < 12 ==> AllItems[k].href != activePath
    ensures forall i :: 0 <= i < 12 ==> !RenderSidebar(Some(activePath), hasLinkHandler)[i].isActive
  {
  }
}
