/** The application's route table (src/App.tsx): nine page routes under the main
    layout and a catch-all that redirects, replacing the history entry, to `/`. */
module AppRoutes {
  import opened Common

  datatype Page = Dashboard | Analytics | Appliances | Calculator | Alerts
                | Marketplace | Sustainability | Settings | Admin

  datatype Route = Route(path: string, page: Page)

  const HomePath: string := "/"
  const AnalyticsPath: string := "/analytics"
  const AppliancesPath: string := "/appliances"
  const CalculatorPath: string := "/calculator"
  const AlertsPath: string := "/alerts"
  const MarketplacePath: string := "/marketplace"
  const SustainabilityPath: string := "/sustainability"
  const SettingsPath: string := "/settings"
  const AdminPath: string := "/admin"

  /** Lines 24-32, in declaration order. */
  const Routes: seq<Route> := [
    Route(HomePath, Dashboard),
    Route(AnalyticsPath, Analytics),
    Route(AppliancesPath, Appliances),
    Route(CalculatorPath, Calculator),
    Route(AlertsPath, Alerts),
    Route(MarketplacePath, Marketplace),
    Route(SustainabilityPath, Sustainability),
    Route(SettingsPath, Settings),
    Route(AdminPath, Admin)
  ]

  /** The path is one of the declared routes. */
  predicate Declared(path: string)
  {
    exists i :: 0 <= i < |Routes| && Routes[i].path == path
  }

  /** The page of the first route in `routes` whose path is exactly `path`. */
  function Lookup(routes: seq<Route>, path: string): (r: Option<Page>)
    ensures r.None? <==> forall i :: 0 <= i < |routes| ==> routes[i].path != path
    ensures r.Some? ==> exists i :: 0 <= i < |routes| && routes[i].path == path &&
                                    routes[i].page == r.value &&
                                    forall j :: 0 <= j < i ==> routes[j].path != path
  {
    if routes == [] then None
    else if routes[0].path == path then Some(routes[0].page)
    else
      var rest := Lookup(routes[1..], path);
      assert rest.Some? ==> exists i :: 0 <= i < |routes| && routes[i].path == path &&
                                        routes[i].page == rest.value &&
                                        forall j :: 0 <= j < i ==> routes[j].path != path by {
        if rest.Some? {
          var k :| 0 <= k < |routes[1..]| && routes[1..][k].path == path &&
                   routes[1..][k].page == rest.value &&
                   forall j :: 0 <= j < k ==> routes[1..][j].path != path;
          assert routes[k + 1] == routes[1..][k];
        }
      }
      rest
  }

  /** What the router does with a location: render a page, or redirect. */
  datatype Resolution = Render(page: Page) | Redirect(target: string)

  /** One matching pass: a declared path renders its page; any other path hits the
      catch-all (line 36) and redirects to `/`. */
  function Match(path: string): (r: Resolution)
    ensures r.Redirect? <==> !Declared(path)
    ensures r.Redirect? ==> r.target == HomePath
    ensures r.Render? ==> exists i :: 0 <= i < |Routes| && Routes[i].path == path && Routes[i].page == r.page
  {
    match Lookup(Routes, path)
    case Some(p) => Render(p)
    case None => Redirect(HomePath)
  }

  /** The nine paths are pairwise distinct (they differ in length, or in the second
      character for the two of length 11). */
  lemma RoutePathsDistinct()
    ensures forall i, j :: 0 <= i < j < |Routes| ==> Routes[i].path != Routes[j].path
  {
    assert |Routes[0].path| == 1 && |Routes[1].path| == 10 && |Routes[2].path| == 11;
    assert |Routes[3].path| == 11 && |Routes[4].path| == 7 && |Routes[5].path| == 12;
    assert |Routes[6].path| == 15 && |Routes[7].path| == 9 && |Routes[8].path| == 6;
    assert Routes[2].path[1] == 'a' && Routes[3].path[1] == 'c';
  }

  /** With distinct paths, looking up a route's path finds that route's page. */
  lemma LookupFindsOwnRoute(routes: seq<Route>, i: int)
    requires forall a, b :: 0 <= a < b < |routes| ==> routes[a].path != routes[b].path
    requires 0 <= i < |routes|
    ensures Lookup(routes, routes[i].path) == Some(routes[i].page)
  {
    var r := Lookup(routes, routes[i].path);
    var k :| 0 <= k < |routes| && routes[k].path == routes[i].path && routes[k].page == r.value &&
             forall j :: 0 <= j < k ==> routes[j].path != routes[i].path;
    assert k == i;
  }

  /** Each declared path renders its own page. */
  lemma EachRouteRendersItsPage(i: int)
    requires 0 <= i < |Routes|
    ensures Match(Routes[i].path) == Render(Routes[i].page)
  {
    RoutePathsDistinct();
    LookupFindsOwnRoute(Routes, i);
  }

  /** The catch-all's target is itself declared. */
  lemma HomeIsDeclared()
    ensures Match(HomePath) == Render(Dashboard)
  {
    EachRouteRendersItsPage(0);
  }

  /** Navigating to a location: match it, and follow the redirect if there is one.
      Every location reaches a page after at most one redirect; unknown paths reach
      the dashboard. */
  function Navigate(path: string): (page: Page)
    ensures Declared(path) ==> Match(path) == Render(page)
    ensures !Declared(path) ==> page == Dashboard
  {
    match Match(path)
    case Render(p) => p
    case Redirect(target) =>
      HomeIsDeclared();
      Match(target).page
  }
}
