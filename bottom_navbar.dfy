/** The mobile bottom bar (src/components/BottomNavbar.tsx): nine links split into
    four on the bar and five in a sliding "More" panel, and the panel's open/closed
    state. */
module BottomNavbar {
  import opened Common
  import AppRoutes

  /** `allNavItems` (lines 9-19); this bar orders and captions them differently
      from the sidebar. */
  const AllNavItems: seq<NavItem> := [
    NavItem("dashboard", "Dashboard", AppRoutes.HomePath),
    NavItem("analytics", "Analytics", AppRoutes.AnalyticsPath),
    NavItem("appliances", "Appliances", AppRoutes.AppliancesPath),
    NavItem("marketplace", "Marketplace", AppRoutes.MarketplacePath),
    NavItem("sustainability", "Sustainability", AppRoutes.SustainabilityPath),
    NavItem("calculator", "Carbon Calculator", AppRoutes.CalculatorPath),
    NavItem("alerts", "Alerts", AppRoutes.AlertsPath),
    NavItem("settings", "Settings", AppRoutes.SettingsPath),
    NavItem("admin", "Admin", AppRoutes.AdminPath)
  ]

  /** How many items sit on the bar itself (`slice(0, 4)`). */
  const BarSize: nat := 4

  /** `mainNavItems` (line 22). */
  const MainNavItems: seq<NavItem> := AllNavItems[..BarSize]

  /** `moreNavItems` (line 23). */
  const MoreNavItems: seq<NavItem> := AllNavItems[BarSize..]

  /** Each item of the bar is the route table entry of the same page. */
  lemma ItemRoute(i: int) returns (k: int)
    requires 0 <= i < |AllNavItems|
    ensures 0 <= k < |AppRoutes.Routes| && AppRoutes.Routes[k].path == AllNavItems[i].path
  {
    k := if i == 3 then 5 else if i == 4 then 6 else if i == 5 then 3 else if i == 6 then 4 else i;
  }

  /** The bar's nine paths are the route table's nine, each once. */
  lemma PathsAreRoutes()
    ensures forall i :: 0 <= i < |AllNavItems| ==> AppRoutes.Declared(AllNavItems[i].path)
    ensures forall i, j :: 0 <= i < j < |AllNavItems| ==> AllNavItems[i].path != AllNavItems[j].path
  {
    AppRoutes.RoutePathsDistinct();
    forall i | 0 <= i < |AllNavItems|
      ensures AppRoutes.Declared(AllNavItems[i].path)
    {
      var k := ItemRoute(i);
    }
    forall i, j | 0 <= i < j < |AllNavItems|
      ensures AllNavItems[i].path != AllNavItems[j].path
    {
      var ki := ItemRoute(i);
      var kj := ItemRoute(j);
    }
  }

  /** The split: four on the bar, five in the panel, together all nine in order,
      and no path in both. */
  lemma SplitPartitions()
    ensures |MainNavItems| == 4 && |MoreNavItems| == 5
    ensures MainNavItems + MoreNavItems == AllNavItems
    ensures forall i, j :: 0 <= i < |MainNavItems| && 0 <= j < |MoreNavItems| ==>
              MainNavItems[i].path != MoreNavItems[j].path
  {
    PathsAreRoutes();
    assert AllNavItems[..BarSize] + AllNavItems[BarSize..] == AllNavItems;
    forall i, j | 0 <= i < |MainNavItems| && 0 <= j < |MoreNavItems|
      ensures MainNavItems[i].path != MoreNavItems[j].path
    {
      assert MainNavItems[i] == AllNavItems[i];
      assert MoreNavItems[j] == AllNavItems[BarSize + j];
    }
  }

  /** `items.some(item => pathname === item.path)`. */
  function AnyLeadsTo(items: seq<NavItem>, pathname: string): (b: bool)
    ensures b <==> exists i :: 0 <= i < |items| && items[i].path == pathname
  {
    if items == [] then false
    else if items[0].path == pathname then true
    else
      var rest := AnyLeadsTo(items[1..], pathname);
      assert rest ==> exists i :: 0 <= i < |items| && items[i].path == pathname by {
        if rest {
          var k :| 0 <= k < |items[1..]| && items[1..][k].path == pathname;
          assert items[k + 1] == items[1..][k];
        }
      }
      assert (exists i :: 0 <= i < |items| && items[i].path == pathname) ==> rest by {
        if exists i :: 0 <= i < |items| && items[i].path == pathname {
          var k :| 0 <= k < |items| && items[k].path == pathname;
          assert k > 0 && items[1..][k - 1] == items[k];
        }
      }
      rest
  }

  /** `isMoreMenuActive` (line 30): the location is one of the panel's pages. */
  function IsMoreMenuActive(pathname: string): (b: bool)
    ensures b <==> exists i :: 0 <= i < |MoreNavItems| && MoreNavItems[i].path == pathname
  {
    AnyLeadsTo(MoreNavItems, pathname)
  }

  /** On a page of the bar the "More" entry is not active, and on one of the nine
      pages exactly one of the two groups holds the location. */
  lemma MoreActiveIffNotOnBar(pathname: string)
    requires exists i :: 0 <= i < |AllNavItems| && AllNavItems[i].path == pathname
    ensures IsMoreMenuActive(pathname) <==> !AnyLeadsTo(MainNavItems, pathname)
  {
    SplitPartitions();
    var k :| 0 <= k < |AllNavItems| && AllNavItems[k].path == pathname;
    if k < BarSize {
      assert MainNavItems[k] == AllNavItems[k];
    } else {
      assert MoreNavItems[k - BarSize] == AllNavItems[k];
    }
  }

  /** One rendered link: where it leads, whether it is highlighted, its text. */
  datatype LinkView = LinkView(target: string, active: bool, text: string)

  /** The bar's links show the item's id as their text (lines 76-91). */
  function BarLinks(pathname: string): (links: seq<LinkView>)
    ensures |links| == |MainNavItems|
    ensures forall i :: 0 <= i < |links| ==>
              links[i] == LinkView(MainNavItems[i].path, pathname == MainNavItems[i].path, MainNavItems[i].id)
  {
    seq(|MainNavItems|, i requires 0 <= i < |MainNavItems| =>
          LinkView(MainNavItems[i].path, pathname == MainNavItems[i].path, MainNavItems[i].id))
  }

  /** The panel's links show the item's caption (lines 52-69). */
  function PanelLinks(pathname: string): (links: seq<LinkView>)
    ensures |links| == |MoreNavItems|
    ensures forall i :: 0 <= i < |links| ==>
              links[i] == LinkView(MoreNavItems[i].path, pathname == MoreNavItems[i].path, MoreNavItems[i].caption)
  {
    seq(|MoreNavItems|, i requires 0 <= i < |MoreNavItems| =>
          LinkView(MoreNavItems[i].path, pathname == MoreNavItems[i].path, MoreNavItems[i].caption))
  }

  /** `isMoreMenuActive` is exactly "some panel link is highlighted". */
  lemma MoreActiveIffPanelLinkActive(pathname: string)
    ensures IsMoreMenuActive(pathname) <==> exists i :: 0 <= i < |PanelLinks(pathname)| && PanelLinks(pathname)[i].active
  {
    var links := PanelLinks(pathname);
    if IsMoreMenuActive(pathname) {
      var k :| 0 <= k < |MoreNavItems| && MoreNavItems[k].path == pathname;
      assert links[k].active;
    }
  }

  /** The bar's state (line 27). */
  class BottomNavbarState {
    var isMoreMenuOpen: bool

    constructor ()
      ensures !isMoreMenuOpen
    {
      isMoreMenuOpen := false;
    }

    /** The dimming overlay is rendered only while the panel is open (line 39). */
    function OverlayShown(): (b: bool)
      reads this
      ensures b <==> isMoreMenuOpen
    {
      isMoreMenuOpen
    }

    /** The "More" button is highlighted while a panel page is shown or the panel is
        open (line 98). */
    function MoreButtonHighlighted(pathname: string): (b: bool)
      reads this
      ensures b <==> IsMoreMenuActive(pathname) || isMoreMenuOpen
    {
      IsMoreMenuActive(pathname) || isMoreMenuOpen
    }

    /** The "More" button (line 96). */
    method ToggleMore()
      modifies this
      ensures isMoreMenuOpen == !old(isMoreMenuOpen)
    {
      isMoreMenuOpen := !isMoreMenuOpen;
    }

    /** A click on the overlay, which exists only while the panel is open
        (lines 39-43). */
    method ClickOverlay()
      requires OverlayShown()
      modifies this
      ensures !isMoreMenuOpen
    {
      isMoreMenuOpen := false;
    }

    /** A click on a panel link (lines 32-34, 58): navigates to its path and closes
        the panel. */
    method ClickPanelLink(i: int) returns (target: string)
      requires 0 <= i < |MoreNavItems|
      modifies this
      ensures target == MoreNavItems[i].path && AppRoutes.Declared(target)
      ensures !isMoreMenuOpen
    {
      PathsAreRoutes();
      assert MoreNavItems[i] == AllNavItems[BarSize + i];
      target := MoreNavItems[i].path;
      isMoreMenuOpen := false;
    }

    /** A click on a bar link: it has no click handler, so it navigates and leaves
        the panel as it was. */
    method ClickBarLink(i: int) returns (target: string)
      requires 0 <= i < |MainNavItems|
      ensures target == MainNavItems[i].path && AppRoutes.Declared(target)
    {
      PathsAreRoutes();
      assert MainNavItems[i] == AllNavItems[i];
      target := MainNavItems[i].path;
    }
  }
}
