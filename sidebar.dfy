/** The desktop sidebar (src/components/Sidebar.tsx): nine links, the one whose path
    is exactly the current location highlighted, and what the collapsed mode hides
    or adds. The collapsed flag belongs to the caller; the sidebar only reports
    clicks on its toggle. */
module Sidebar {
  import opened Common
  import AppRoutes

  /** `navigationItems` (lines 26-36). */
  const NavigationItems: seq<NavItem> := [
    NavItem("dashboard", "Dashboard", AppRoutes.HomePath),
    NavItem("analytics", "Analytics", AppRoutes.AnalyticsPath),
    NavItem("appliances", "Appliances", AppRoutes.AppliancesPath),
    NavItem("calculator", "Carbon Calculator", AppRoutes.CalculatorPath),
    NavItem("alerts", "Alerts", AppRoutes.AlertsPath),
    NavItem("marketplace", "Marketplace", AppRoutes.MarketplacePath),
    NavItem("sustainability", "ESG Reports", AppRoutes.SustainabilityPath),
    NavItem("settings", "Settings", AppRoutes.SettingsPath),
    NavItem("admin", "Admin", AppRoutes.AdminPath)
  ]

  /** One rendered link: where it leads, whether it is highlighted, and its text
      shown inline or as a hover tooltip. */
  datatype LinkView = LinkView(target: string, active: bool, inlineText: Option<string>, tooltip: Option<string>)

  /** Lines 65-93 for one item. */
  function ItemView(item: NavItem, pathname: string, isCollapsed: bool): (v: LinkView)
    ensures v.target == item.path
    ensures v.active <==> pathname == item.path
    ensures v.inlineText.Some? <==> !isCollapsed
    ensures v.tooltip.Some? <==> isCollapsed
    ensures v.inlineText.Some? ==> v.inlineText.value == item.caption
    ensures v.tooltip.Some? ==> v.tooltip.value == item.caption
  {
    LinkView(item.path, pathname == item.path,
             if isCollapsed then None else Some(item.caption),
             if isCollapsed then Some(item.caption) else None)
  }

  /** The whole sidebar. */
  datatype View = View(brandShown: bool, links: seq<LinkView>, toggleLabel: string)

  const ExpandLabel: string := "Expand sidebar"
  const CollapseLabel: string := "Collapse sidebar"

  function Render(pathname: string, isCollapsed: bool): (v: View)
    ensures v.brandShown <==> !isCollapsed
    ensures |v.links| == |NavigationItems|
    ensures forall i :: 0 <= i < |v.links| ==> v.links[i] == ItemView(NavigationItems[i], pathname, isCollapsed)
    ensures v.toggleLabel == (if isCollapsed then ExpandLabel else CollapseLabel)
  {
    View(!isCollapsed,
         seq(|NavigationItems|, i requires 0 <= i < |NavigationItems| =>
               ItemView(NavigationItems[i], pathname, isCollapsed)),
         if isCollapsed then ExpandLabel else CollapseLabel)
  }

  /** The sidebar's paths are exactly the route table's, in the same order, so
      every link renders a page. */
  lemma PathsAreRoutes()
    ensures |NavigationItems| == |AppRoutes.Routes|
    ensures forall i :: 0 <= i < |NavigationItems| ==> NavigationItems[i].path == AppRoutes.Routes[i].path
    ensures forall i :: 0 <= i < |NavigationItems| ==> AppRoutes.Match(NavigationItems[i].path).Render?
  {
    assert forall i :: 0 <= i < |NavigationItems| ==> NavigationItems[i].path == AppRoutes.Routes[i].path by {
      forall i | 0 <= i < |NavigationItems|
        ensures NavigationItems[i].path == AppRoutes.Routes[i].path
      {
        SamePath(i);
      }
    }
    forall i | 0 <= i < |NavigationItems|
      ensures AppRoutes.Match(NavigationItems[i].path).Render?
    {
      AppRoutes.EachRouteRendersItsPage(i);
    }
  }

  lemma SamePath(i: int)
    requires 0 <= i < |NavigationItems| && |NavigationItems| == |AppRoutes.Routes|
    ensures NavigationItems[i].path == AppRoutes.Routes[i].path
  {
    if i == 0 {} else if i == 1 {} else if i == 2 {} else if i == 3 {} else if i == 4 {}
    else if i == 5 {} else if i == 6 {} else if i == 7 {} else {}
  }

  /** At most one link is highlighted, and on a declared route exactly one is:
      the one leading there. */
  lemma OneActiveLink(pathname: string, isCollapsed: bool)
    ensures var v := Render(pathname, isCollapsed);
      forall i, j :: 0 <= i < j < |v.links| ==> !(v.links[i].active && v.links[j].active)
    ensures var v := Render(pathname, isCollapsed);
      AppRoutes.Declared(pathname) ==> exists i :: 0 <= i < |v.links| && v.links[i].active
  {
    PathsAreRoutes();
    AppRoutes.RoutePathsDistinct();
    var v := Render(pathname, isCollapsed);
    if AppRoutes.Declared(pathname) {
      var k :| 0 <= k < |AppRoutes.Routes| && AppRoutes.Routes[k].path == pathname;
      assert v.links[k].active;
    }
  }

  /** On every page the toggle's label tells which way it will go, and the label
      changes with the mode, so the mode can be read off it. */
  lemma ToggleLabelsDiffer(pathname: string)
    ensures Render(pathname, true).toggleLabel == ExpandLabel
    ensures Render(pathname, false).toggleLabel == CollapseLabel
    ensures Render(pathname, true).toggleLabel != Render(pathname, false).toggleLabel
  {
    assert ExpandLabel[0] != CollapseLabel[0];
  }
}
