/** The sidebar's links (src/components/sidebar/components/Links.tsx): which
    route is active for the current pathname, and which routes become links
    and with what href. */
module SidebarLinks {
  import opened Options

  /** A route entry (src/routes.tsx); its icon is reduced to whether it has
      one. */
  datatype Route = Route(name: string, layout: string, path: string, hasIcon: bool, secondary: bool)

  /** `s.startsWith(p)`. */
  predicate StartsWith(s: string, p: string)
  {
    p <= s
  }

  /** `pathname === full || pathname?.startsWith(full + '/')`; a missing
      pathname matches nothing. */
  predicate ActiveRoute(pathname: Option<string>, full: string)
    ensures ActiveRoute(pathname, full) ==> pathname.Some? && StartsWith(pathname.value, full)
    ensures pathname == Some(full) ==> ActiveRoute(pathname, full)
  {
    match pathname
    case None => false
    case Some(p) => p == full || StartsWith(p, full + "/")
  }

  /** Active exactly when the pathname starts with the full path and either
      ends there or continues with a '/'. */
  lemma ActiveRouteRule(p: string, full: string)
    ensures ActiveRoute(Some(p), full) <==>
              StartsWith(p, full) && (|p| == |full| || p[|full|] == '/')
  {
    if StartsWith(p, full) && |p| > |full| && p[|full|] == '/' {
      assert p[..|full| + 1] == full + "/";
    }
    if p != full && StartsWith(p, full + "/") {
      assert p[..|full|] == (full + "/")[..|full|];
    }
  }

  /** The exact path is active. */
  lemma ExactMatchIsActive(full: string)
    ensures ActiveRoute(Some(full), full)
  {
  }

  /** Every path below the full path is active. */
  lemma DescendantIsActive(full: string, rest: string)
    ensures ActiveRoute(Some(full + "/" + rest), full)
  {
    assert (full + "/" + rest)[..|full| + 1] == full + "/";
  }

  /** A path that merely extends the full path's last segment is not. */
  lemma SiblingIsNotActive(full: string, c: char, rest: string)
    requires c != '/'
    ensures !ActiveRoute(Some(full + [c] + rest), full)
  {
    var p := full + [c] + rest;
    ActiveRouteRule(p, full);
    assert p[|full|] == c;
  }

  lemma HomepageIsNotHome()
    ensures !ActiveRoute(Some("/dashboard/homepage"), "/dashboard/home")
  {
    SiblingIsNotActive("/dashboard/home", 'p', "age");
    assert "/dashboard/home" + ['p'] + "age" == "/dashboard/homepage";
  }

  /** A pathname no longer than a different full path never matches it. */
  lemma NotLongerIsInactive(p: string, full: string)
    requires |p| <= |full| && p != full
    ensures !ActiveRoute(Some(p), full)
  {
  }

  lemma NoPathnameIsNeverActive(full: string)
    ensures !ActiveRoute(None, full)
  {
  }

  // ---------------------------------------------------------------------
  // Lower-casing

  /** `toLowerCase` on one character, for the ASCII letters. */
  function LowerChar(c: char): (l: char)
    ensures !('A' <= l <= 'Z')
    ensures !('A' <= c <= 'Z') ==> l == c
  {
    if 'A' <= c <= 'Z' then (c - 'A' + 'a') as char else c
  }

  function Lower(s: string): (r: string)
    ensures |r| == |s|
    ensures forall i :: 0 <= i < |s| ==> r[i] == LowerChar(s[i])
  {
    if |s| == 0 then [] else [LowerChar(s[0])] + Lower(s[1..])
  }

  predicate IsLower(s: string)
  {
    forall i :: 0 <= i < |s| ==> !('A' <= s[i] <= 'Z')
  }

  /** Lower-casing leaves lower-case text alone and is idempotent. */
  lemma LowerFixesLower(s: string)
    ensures IsLower(Lower(s))
    ensures IsLower(s) ==> Lower(s) == s
    ensures Lower(Lower(s)) == Lower(s)
  {
    if IsLower(s) {
      assert forall i :: 0 <= i < |s| ==> Lower(s)[i] == s[i];
    }
    var l := Lower(s);
    assert forall i :: 0 <= i < |l| ==> Lower(l)[i] == l[i];
  }

  /** Lower-casing works character by character, so it splits over "+". */
  lemma LowerAppend(a: string, b: string)
    ensures Lower(a + b) == Lower(a) + Lower(b)
  {
    var l, r := Lower(a + b), Lower(a) + Lower(b);
    assert forall i :: 0 <= i < |l| ==> l[i] == r[i];
  }

  // ---------------------------------------------------------------------
  // Links

  datatype Link = Link(href: string, name: string, isActive: bool, hasIcon: bool)

  /** The entry for one route: a link for a "/dashboard" route, null for any
      other. */
  function LinkFor(route: Route, pathname: Option<string>): (l: Option<Link>)
    ensures l.Some? <==> route.layout == "/dashboard"
    ensures l.Some? ==> l.value.href == Lower(route.layout + route.path)
    ensures l.Some? ==> l.value.isActive == ActiveRoute(pathname, l.value.href)
    ensures l.Some? ==> l.value.name == route.name && l.value.hasIcon == route.hasIcon
  {
    if route.layout == "/dashboard" then
      var fullPath := Lower(route.layout + route.path);
      Some(Link(fullPath, route.name, ActiveRoute(pathname, fullPath), route.hasIcon))
    else None
  }

  /** `routes.map(...)`: one entry per route, in order. */
  function CreateLinks(routes: seq<Route>, pathname: Option<string>): (links: seq<Option<Link>>)
    ensures |links| == |routes|
    ensures forall i :: 0 <= i < |routes| ==> links[i] == LinkFor(routes[i], pathname)
  {
    if |routes| == 0 then []
    else [LinkFor(routes[0], pathname)] + CreateLinks(routes[1..], pathname)
  }

  /** Number of non-null entries. */
  function LinkCount(links: seq<Option<Link>>): nat
  {
    if |links| == 0 then 0 else (if links[0].Some? then 1 else 0) + LinkCount(links[1..])
  }

  function DashboardCount(routes: seq<Route>): nat
  {
    if |routes| == 0 then 0
    else (if routes[0].layout == "/dashboard" then 1 else 0) + DashboardCount(routes[1..])
  }

  /** There are as many links as "/dashboard" routes, whatever the pathname. */
  lemma {:induction false} LinkCountIsDashboardCount(routes: seq<Route>, pathname: Option<string>)
    ensures LinkCount(CreateLinks(routes, pathname)) == DashboardCount(routes)
  {
    if |routes| > 0 {
      var links := CreateLinks(routes, pathname);
      assert links[1..] == CreateLinks(routes[1..], pathname);
      LinkCountIsDashboardCount(routes[1..], pathname);
    }
  }

  lemma {:induction false} DashboardCountAppend(a: seq<Route>, b: seq<Route>)
    ensures DashboardCount(a + b) == DashboardCount(a) + DashboardCount(b)
  {
    if |a| > 0 {
      assert (a + b)[1..] == a[1..] + b;
      DashboardCountAppend(a[1..], b);
    } else {
      assert a + b == b;
    }
  }

  lemma {:induction false} NoDashboardNoCount(routes: seq<Route>)
    requires forall i :: 0 <= i < |routes| ==> routes[i].layout != "/dashboard"
    ensures DashboardCount(routes) == 0
  {
    if |routes| > 0 {
      NoDashboardNoCount(routes[1..]);
    }
  }

  /** Every href starts with "/dashboard" and is lower case; the layout is
      already lower case, so only the path is changed. */
  lemma HrefShape(route: Route, pathname: Option<string>)
    requires route.layout == "/dashboard"
    ensures var href := LinkFor(route, pathname).value.href;
            && href == "/dashboard" + Lower(route.path)
            && StartsWith(href, "/dashboard")
            && IsLower(href)
  {
    var href := LinkFor(route, pathname).value.href;
    assert href == Lower(route.layout + route.path);
    LowerAppend(route.layout, route.path);
    DashboardIsLower();
    LowerFixesLower("/dashboard");
    assert href == "/dashboard" + Lower(route.path);
    assert href[..10] == "/dashboard";
    LowerFixesLower(route.layout + route.path);
  }

  lemma DashboardIsLower()
    ensures IsLower("/dashboard")
  {
    var s := "/dashboard";
    assert forall i :: 0 <= i < |s| ==> s[i] in "/dashboard";
  }
}
