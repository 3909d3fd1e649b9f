/** The static route table (src/routes.tsx) and what the sidebar makes of
    it. */
module RouteTable {
  import opened Options
  import opened SidebarLinks

  const HomeRoute := Route("Home Page", "/dashboard", "/home", true, false)
  const ClientRoute := Route("Client Insights", "/dashboard", "/client", true, false)
  const FileRoute := Route("File Insights", "/dashboard", "/file", true, false)
  const BillingRoute := Route("Billing Insights", "/dashboard", "/billing", true, false)

  const DashboardRoutes: seq<Route> := [HomeRoute, ClientRoute, FileRoute, BillingRoute]

  const OtherRoutes: seq<Route> := [
    Route("Main Dashboard ", "/admin", "/default", true, false),
    Route("NFT Marketplace", "/admin", "/nft-marketplace", true, true),
    Route("Data Tables", "/admin", "/data-tables", true, false),
    Route("Profile", "/admin", "/profile", true, false),
    Route("Sign In", "/auth", "/sign-in", true, false),
    Route("RTL Admin", "/rtl", "/rtl-default", true, false)
  ]

  /** The table in its source order: the four dashboard pages first. */
  const Routes: seq<Route> := DashboardRoutes + OtherRoutes

  /** None of the admin, auth and RTL routes has the "/dashboard" layout. */
  lemma OtherRoutesAreNotDashboard()
    ensures |OtherRoutes| == 6
    ensures forall i :: 0 <= i < |OtherRoutes| ==> OtherRoutes[i].layout != "/dashboard"
  {
    assert forall i :: 0 <= i < |OtherRoutes| ==> |OtherRoutes[i].layout| < |"/dashboard"|;
  }

  /** Ten routes give ten entries, of which the first four, the dashboard
      pages, are links, whatever the pathname. */
  lemma FourDashboardLinks(pathname: Option<string>)
    ensures |CreateLinks(Routes, pathname)| == 10
    ensures forall i :: 0 <= i < 10 ==> (CreateLinks(Routes, pathname)[i].Some? <==> i < 4)
    ensures LinkCount(CreateLinks(Routes, pathname)) == 4
  {
    OtherRoutesAreNotDashboard();
    var links := CreateLinks(Routes, pathname);
    assert forall i :: 0 <= i < 4 ==> Routes[i] == DashboardRoutes[i];
    assert forall i :: 4 <= i < 10 ==> Routes[i] == OtherRoutes[i - 4];
    LinkCountIsDashboardCount(Routes, pathname);
    DashboardCountAppend(DashboardRoutes, OtherRoutes);
    NoDashboardNoCount(OtherRoutes);
    assert DashboardCount(DashboardRoutes[3..]) == 1;
    assert DashboardCount(DashboardRoutes[2..]) == 2;
    assert DashboardCount(DashboardRoutes[1..]) == 3;
  }

  /** A dashboard route with a lower-case path links to layout + path. */
  lemma LowerCaseHref(route: Route, pathname: Option<string>)
    requires route.layout == "/dashboard" && IsLower(route.path)
    ensures LinkFor(route, pathname).value.href == "/dashboard" + route.path
  {
    HrefShape(route, pathname);
    LowerFixesLower(route.path);
  }

  /** The four links point at the four dashboard pages and are active as
      those hrefs decide. */
  lemma DashboardHrefs(pathname: Option<string>)
    ensures var links := CreateLinks(Routes, pathname);
            && links[0] == Some(Link("/dashboard/home", "Home Page", ActiveRoute(pathname, "/dashboard/home"), true))
            && links[1] == Some(Link("/dashboard/client", "Client Insights", ActiveRoute(pathname, "/dashboard/client"), true))
            && links[2] == Some(Link("/dashboard/file", "File Insights", ActiveRoute(pathname, "/dashboard/file"), true))
            && links[3] == Some(Link("/dashboard/billing", "Billing Insights", ActiveRoute(pathname, "/dashboard/billing"), true))
  {
    var links := CreateLinks(Routes, pathname);
    assert links[0] == LinkFor(HomeRoute, pathname);
    assert links[1] == LinkFor(ClientRoute, pathname);
    assert links[2] == LinkFor(FileRoute, pathname);
    assert links[3] == LinkFor(BillingRoute, pathname);
    LowerCaseHref(HomeRoute, pathname);
    LowerCaseHref(ClientRoute, pathname);
    LowerCaseHref(FileRoute, pathname);
    LowerCaseHref(BillingRoute, pathname);
    assert "/dashboard" + "/home" == "/dashboard/home";
    assert "/dashboard" + "/client" == "/dashboard/client";
    assert "/dashboard" + "/file" == "/dashboard/file";
    assert "/dashboard" + "/billing" == "/dashboard/billing";
  }

  /** A pathname at or below the home page matches the home page's href
      and none of the other dashboard hrefs. */
  lemma HomePathMatchesOnlyHome(p: string)
    requires p == "/dashboard/home" || StartsWith(p, "/dashboard/home/")
    ensures ActiveRoute(Some(p), "/dashboard/home")
    ensures !ActiveRoute(Some(p), "/dashboard/client")
    ensures !ActiveRoute(Some(p), "/dashboard/file")
    ensures !ActiveRoute(Some(p), "/dashboard/billing")
  {
    assert p[..15] == "/dashboard/home";
    assert p[11] == 'h';
    ActiveRouteRule(p, "/dashboard/client");
    ActiveRouteRule(p, "/dashboard/file");
    ActiveRouteRule(p, "/dashboard/billing");
    assert "/dashboard/client"[11] == 'c';
    assert "/dashboard/file"[11] == 'f';
    assert "/dashboard/billing"[11] == 'b';
  }

  /** At "/dashboard/home" or any page below it, the Home Page link is the
      only active one. */
  lemma OnlyHomeIsActive(p: string)
    requires p == "/dashboard/home" || StartsWith(p, "/dashboard/home/")
    ensures var links := CreateLinks(Routes, Some(p));
            && links[0].value.isActive
            && !links[1].value.isActive && !links[2].value.isActive && !links[3].value.isActive
  {
    DashboardHrefs(Some(p));
    HomePathMatchesOnlyHome(p);
  }
}
