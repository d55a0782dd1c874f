/**
 * The route table and its guard: public pages, student pages and staff
 * pages, each protected page wrapped in a role check, and a catch-all that
 * sends a visitor to the dashboard for their role or to the splash page.
 * A location matches a route path as React Router matches a path without
 * parameters: ASCII letters without regard to case, and any number of
 * trailing '/'.
 */
module AppRouter {
  import opened Types
  import AuthContext

  datatype Page =
    | Splash | RoleSelection | Login | Signup
    | StudentDashboard | StudentEvents | StudentODRequests | StudentProfile
    | StaffDashboard | StaffEvents | StaffODRequests | StaffProfile

  /** A route: its path, whether its page is wrapped in the guard, the role the guard asks for, the page. */
  datatype Route = Route(path: string, guarded: bool, requiredRole: Option<Role>, page: Page)

  /** What rendering a route yields: the page, or a redirect. */
  datatype Outcome = Render(page: Page) | Navigate(to: string)

  const Home := "/"

  /** `state.user?.role`: absent when there is no user. */
  function UserRole(s: AuthState): Option<Role> {
    if s.user.Some? then Some(s.user.value.Role()) else None
  }

  /** ProtectedRoute: home unless authenticated and, when a role is asked for, holding that role. */
  function ProtectedRoute(s: AuthState, requiredRole: Option<Role>, page: Page): (o: Outcome)
    ensures !s.isAuthenticated ==> o == Navigate(Home)
    ensures s.isAuthenticated && requiredRole.Some? && UserRole(s) != requiredRole ==> o == Navigate(Home)
    ensures o == Render(page) <==> s.isAuthenticated && (requiredRole == None || UserRole(s) == requiredRole)
    ensures o == Render(page) || o == Navigate(Home)
  {
    if !s.isAuthenticated then Navigate(Home)
    else if requiredRole.Some? && UserRole(s) != requiredRole then Navigate(Home)
    else Render(page)
  }

  /** The catch-all's redirect: a student's dashboard, any other user's staff dashboard, or home. */
  function CatchAllTarget(s: AuthState): (t: string)
    ensures !s.isAuthenticated ==> t == Home
    ensures s.isAuthenticated && UserRole(s) == Some(StudentRole) ==> t == "/student/dashboard"
    ensures s.isAuthenticated && UserRole(s) != Some(StudentRole) ==> t == "/staff/dashboard"
  {
    if s.isAuthenticated then
      if UserRole(s) == Some(StudentRole) then "/student/dashboard" else "/staff/dashboard"
    else Home
  }

  const Routes: seq<Route> := [
    Route("/", false, None, Splash),
    Route("/role-selection", false, None, RoleSelection),
    Route("/login", false, None, Login),
    Route("/signup", false, None, Signup),
    Route("/student/dashboard", true, Some(StudentRole), StudentDashboard),
    Route("/student/events", true, Some(StudentRole), StudentEvents),
    Route("/student/od-requests", true, Some(StudentRole), StudentODRequests),
    Route("/student/profile", true, Some(StudentRole), StudentProfile),
    Route("/staff/dashboard", true, Some(StaffRole), StaffDashboard),
    Route("/staff/events", true, Some(StaffRole), StaffEvents),
    Route("/staff/od-requests", true, Some(StaffRole), StaffODRequests),
    Route("/staff/students", true, Some(StaffRole), StaffDashboard),
    Route("/staff/profile", true, Some(StaffRole), StaffProfile)
  ]

  /** ASCII upper-case letters to lower case, every other character unchanged. */
  function LowerChar(c: char): char {
    if 'A' <= c <= 'Z' then (c as int + 32) as char else c
  }

  /** The path with its ASCII letters in lower case. */
  function AsciiLower(s: string): string {
    seq(|s|, i requires 0 <= i < |s| => LowerChar(s[i]))
  }

  /**
   * React Router's pattern for a route path without parameters: from index
   * `i` on, the location repeats the route with letters compared without
   * regard to case, and then has nothing but '/' characters.
   */
  predicate MatchFrom(route: string, path: string, i: nat)
    decreases |path| - i
  {
    if i >= |path| then i >= |route|
    else if i < |route| then LowerChar(path[i]) == route[i] && MatchFrom(route, path, i + 1)
    else path[i] == '/' && MatchFrom(route, path, i + 1)
  }

  /** Whether the location `path` matches the route path `route`. */
  predicate Matches(route: string, path: string) {
    MatchFrom(route, path, 0)
  }

  /** The first route whose path the location matches. */
  function Lookup(routes: seq<Route>, path: string): (r: Option<Route>)
    ensures r.Some? ==> r.value in routes && Matches(r.value.path, path)
    ensures r.None? ==> forall x :: x in routes ==> !Matches(x.path, path)
  {
    if |routes| == 0 then None
    else if Matches(routes[0].path, path) then Some(routes[0])
    else Lookup(routes[1..], path)
  }

  /** What the router shows at `path`: the matched route (through the guard when wrapped), else the catch-all. */
  function Resolve(path: string, s: AuthState): Outcome {
    match Lookup(Routes, path)
    case None => Navigate(CatchAllTarget(s))
    case Some(r) => if r.guarded then ProtectedRoute(s, r.requiredRole, r.page) else Render(r.page)
  }

  predicate StartsWith(s: string, prefix: string) {
    |prefix| <= |s| && s[..|prefix|] == prefix
  }

  // ---------------------------------------------------------------------
  // Properties
  // ---------------------------------------------------------------------

  /** A string that differs from `prefix` at some index of the prefix does not start with it. */
  lemma DiffersAt(s: string, prefix: string, k: nat)
    requires k < |prefix| && (k >= |s| || s[k] != prefix[k])
    ensures !StartsWith(s, prefix)
  {
  }

  /** The public routes: unguarded, and under neither /student/ nor /staff/. */
  lemma PublicRouteArea(i: nat)
    requires i < 4
    ensures !Routes[i].guarded && !StartsWith(Routes[i].path, "/student/") && !StartsWith(Routes[i].path, "/staff/")
  {
    var p := Routes[i].path;
    DiffersAt(p, "/student/", if i == 0 then 1 else 8);
    DiffersAt(p, "/staff/", if i == 0 then 1 else if i == 3 then 2 else 6);
  }

  /** The student routes: under /student/, not under /staff/, guarded for students. */
  lemma StudentRouteArea(i: nat)
    requires 4 <= i < 8
    ensures Routes[i].guarded && Routes[i].requiredRole == Some(StudentRole)
    ensures StartsWith(Routes[i].path, "/student/") && !StartsWith(Routes[i].path, "/staff/")
  {
    DiffersAt(Routes[i].path, "/staff/", 3);
  }

  /** The staff routes: under /staff/, not under /student/, guarded for staff. */
  lemma StaffRouteArea(i: nat)
    requires 8 <= i < |Routes|
    ensures Routes[i].guarded && Routes[i].requiredRole == Some(StaffRole)
    ensures StartsWith(Routes[i].path, "/staff/") && !StartsWith(Routes[i].path, "/student/")
  {
    DiffersAt(Routes[i].path, "/student/", 3);
  }

  /** The area of one route of the table, read off its path. */
  lemma RouteArea(i: nat)
    requires i < |Routes|
    ensures var r := Routes[i];
      (StartsWith(r.path, "/student/") ==> r.guarded && r.requiredRole == Some(StudentRole))
      && (StartsWith(r.path, "/staff/") ==> r.guarded && r.requiredRole == Some(StaffRole))
      && (r.guarded ==> StartsWith(r.path, "/student/") || StartsWith(r.path, "/staff/"))
  {
    if i < 4 {
      PublicRouteArea(i);
    } else if i < 8 {
      StudentRouteArea(i);
    } else {
      StaffRouteArea(i);
    }
  }

  /** Every /student/ route is guarded for students, every /staff/ route for staff, and the rest are public. */
  lemma RoutesRequireTheirRole()
    ensures forall r :: r in Routes && StartsWith(r.path, "/student/") ==> r.guarded && r.requiredRole == Some(StudentRole)
    ensures forall r :: r in Routes && StartsWith(r.path, "/staff/") ==> r.guarded && r.requiredRole == Some(StaffRole)
    ensures forall r :: r in Routes && r.guarded ==> StartsWith(r.path, "/student/") || StartsWith(r.path, "/staff/")
  {
    forall r | r in Routes
      ensures StartsWith(r.path, "/student/") ==> r.guarded && r.requiredRole == Some(StudentRole)
      ensures StartsWith(r.path, "/staff/") ==> r.guarded && r.requiredRole == Some(StaffRole)
      ensures r.guarded ==> StartsWith(r.path, "/student/") || StartsWith(r.path, "/staff/")
    {
      var i :| 0 <= i < |Routes| && Routes[i] == r;
      RouteArea(i);
    }
  }

  /** The matching pattern read as a whole: the lower-cased location starts with the route, and only '/' follows. */
  lemma {:induction false} MatchFromMeans(route: string, path: string, i: nat)
    requires i <= |path|
    ensures MatchFrom(route, path, i) <==>
      |route| <= |path|
      && (forall k :: i <= k < |route| ==> LowerChar(path[k]) == route[k])
      && (forall k :: i <= k < |path| && k >= |route| ==> path[k] == '/')
    decreases |path| - i
  {
    if i < |path| {
      MatchFromMeans(route, path, i + 1);
    }
  }

  /** A location matches a route exactly when, lower-cased, it is the route followed by '/' characters only. */
  lemma MatchesMeans(route: string, path: string)
    ensures Matches(route, path) <==>
      StartsWith(AsciiLower(path), route) && forall k :: |route| <= k < |path| ==> path[k] == '/'
  {
    MatchFromMeans(route, path, 0);
    if |route| <= |path| {
      assert (forall k :: 0 <= k < |route| ==> LowerChar(path[k]) == route[k])
        <==> AsciiLower(path)[..|route|] == route;
    }
  }

  /** A location matching `route` is outside `prefix` when the two differ at index `k` (a '/' of the location's tail counts). */
  lemma MatchOutside(route: string, path: string, prefix: string, k: nat)
    requires Matches(route, path)
    requires k < |prefix|
    requires if k < |route| then route[k] != prefix[k] else prefix[k] != '/'
    ensures !StartsWith(AsciiLower(path), prefix)
  {
    MatchesMeans(route, path);
  }

  /** A location matching a public route is under neither /student/ nor /staff/. */
  lemma PublicMatchArea(i: nat, path: string)
    requires i < 4 && Matches(Routes[i].path, path)
    ensures !StartsWith(AsciiLower(path), "/student/") && !StartsWith(AsciiLower(path), "/staff/")
  {
    var k := if i == 3 then 2 else 1;
    MatchOutside(Routes[i].path, path, "/student/", k);
    MatchOutside(Routes[i].path, path, "/staff/", k);
  }

  /** A location matching a student route is under /student/, not /staff/. */
  lemma StudentMatchArea(i: nat, path: string)
    requires 4 <= i < 8 && Matches(Routes[i].path, path)
    ensures !StartsWith(AsciiLower(path), "/staff/")
  {
    MatchOutside(Routes[i].path, path, "/staff/", 3);
  }

  /** A location matching a staff route is under /staff/, not /student/. */
  lemma StaffMatchArea(i: nat, path: string)
    requires 8 <= i < |Routes| && Matches(Routes[i].path, path)
    ensures !StartsWith(AsciiLower(path), "/student/")
  {
    MatchOutside(Routes[i].path, path, "/student/", 3);
  }

  /** A location under /student/ or /staff/, whatever its case, matches only routes in that area. */
  lemma MatchedArea(r: Route, path: string)
    requires r in Routes && Matches(r.path, path)
    ensures StartsWith(AsciiLower(path), "/student/") ==> r.guarded && r.requiredRole == Some(StudentRole)
    ensures StartsWith(AsciiLower(path), "/staff/") ==> r.guarded && r.requiredRole == Some(StaffRole)
  {
    var i :| 0 <= i < |Routes| && Routes[i] == r;
    if i < 4 {
      PublicMatchArea(i, path);
    } else if i < 8 {
      StudentRouteArea(i);
      StudentMatchArea(i, path);
    } else {
      StaffRouteArea(i);
      StaffMatchArea(i, path);
    }
  }

  /**
   * A page under /student/ is shown only to an authenticated student, and
   * one under /staff/ only to staff, whatever the case of the location.
   */
  lemma RenderNeedsRole(path: string, s: AuthState)
    ensures Resolve(path, s).Render? && StartsWith(AsciiLower(path), "/student/") ==>
      s.isAuthenticated && UserRole(s) == Some(StudentRole)
    ensures Resolve(path, s).Render? && StartsWith(AsciiLower(path), "/staff/") ==>
      s.isAuthenticated && UserRole(s) == Some(StaffRole)
  {
    if Resolve(path, s).Render? {
      var r := Lookup(Routes, path).value;
      MatchedArea(r, path);
    }
  }

  /** Case folding the location folds nothing a route compares. */
  lemma MatchesLower(route: string, path: string)
    ensures Matches(route, AsciiLower(path)) == Matches(route, path)
  {
    MatchesMeans(route, path);
    MatchesMeans(route, AsciiLower(path));
    assert AsciiLower(AsciiLower(path)) == AsciiLower(path);
    forall k | |route| <= k < |path|
      ensures AsciiLower(path)[k] == '/' <==> path[k] == '/'
    {
    }
  }

  lemma {:induction false} LookupLower(routes: seq<Route>, path: string)
    ensures Lookup(routes, AsciiLower(path)) == Lookup(routes, path)
  {
    if |routes| > 0 {
      MatchesLower(routes[0].path, path);
      LookupLower(routes[1..], path);
    }
  }

  /** The router does not tell upper from lower case in a location. */
  lemma CaseIgnored(path: string, s: AuthState)
    ensures Resolve(AsciiLower(path), s) == Resolve(path, s)
  {
    LookupLower(Routes, path);
  }

  /** A route path that is "/" or does not end in '/'. */
  predicate NoTrailingSlash(route: string) {
    route != "" && (|route| == 1 || route[|route| - 1] != '/')
  }

  /** One more '/' at the end of a location changes no match with such a route. */
  lemma MatchesSlash(route: string, path: string)
    requires NoTrailingSlash(route) && path != ""
    ensures Matches(route, path + "/") == Matches(route, path)
  {
    var q := path + "/";
    MatchesMeans(route, path);
    MatchesMeans(route, q);
    assert AsciiLower(q) == AsciiLower(path) + ['/'];
    if Matches(route, q) {
      assert AsciiLower(path)[..|route|] == AsciiLower(q)[..|route|];
      forall k | |route| <= k < |path|
        ensures path[k] == '/'
      {
        assert q[k] == path[k];
      }
    }
    if Matches(route, path) {
      assert AsciiLower(q)[..|route|] == AsciiLower(path)[..|route|];
      forall k | |route| <= k < |q|
        ensures q[k] == '/'
      {
        if k < |path| {
          assert q[k] == path[k];
        }
      }
    }
  }

  lemma {:induction false} LookupSlash(routes: seq<Route>, path: string)
    requires path != ""
    requires forall r :: r in routes ==> NoTrailingSlash(r.path)
    ensures Lookup(routes, path + "/") == Lookup(routes, path)
  {
    if |routes| > 0 {
      MatchesSlash(routes[0].path, path);
      LookupSlash(routes[1..], path);
    }
  }

  lemma RoutesHaveNoTrailingSlash()
    ensures forall r :: r in Routes ==> NoTrailingSlash(r.path)
  {
    forall i | 0 <= i < |Routes|
      ensures NoTrailingSlash(Routes[i].path)
    {
    }
  }

  /** The router ignores a trailing '/' on a location. */
  lemma TrailingSlashIgnored(path: string, s: AuthState)
    requires path != ""
    ensures Resolve(path + "/", s) == Resolve(path, s)
  {
    RoutesHaveNoTrailingSlash();
    LookupSlash(Routes, path);
  }

  /** Two route paths one location matches: the longer is the shorter followed by '/' characters. */
  lemma MatchesBoth(a: string, b: string, path: string)
    requires Matches(a, path) && Matches(b, path) && |a| <= |b|
    ensures b[..|a|] == a && forall k :: |a| <= k < |b| ==> b[k] == '/'
  {
    MatchesMeans(a, path);
    MatchesMeans(b, path);
    assert b[..|a|] == AsciiLower(path)[..|a|];
    forall k | |a| <= k < |b|
      ensures b[k] == '/'
    {
      assert b[k] == AsciiLower(path)[..|b|][k];
    }
  }

  lemma RoutePathsDistinct()
    ensures forall i, j :: 0 <= i < j < |Routes| ==> Routes[i].path != Routes[j].path
  {
  }

  /**
   * No location matches two routes of the table, so taking the first match
   * agrees with React Router's ranking of routes by specificity.
   */
  lemma AtMostOneRouteMatches(path: string, i: nat, j: nat)
    requires i < |Routes| && j < |Routes|
    requires Matches(Routes[i].path, path) && Matches(Routes[j].path, path)
    ensures i == j
  {
    RoutesHaveNoTrailingSlash();
    RoutePathsDistinct();
    var a, b := Routes[i].path, Routes[j].path;
    if |a| <= |b| {
      MatchesBoth(a, b, path);
    } else {
      MatchesBoth(b, a, path);
    }
  }

  /** Home always renders the splash page, so every guard redirect ends on a page. */
  lemma HomeRenders(s: AuthState)
    ensures Resolve(Home, s) == Render(Splash)
  {
  }

  /** Lookup returns the first route the location matches. */
  lemma {:induction false} LookupFinds(routes: seq<Route>, path: string, k: nat)
    requires k < |routes| && Matches(routes[k].path, path)
    requires forall j :: 0 <= j < k ==> !Matches(routes[j].path, path)
    ensures Lookup(routes, path) == Some(routes[k])
  {
    if k > 0 {
      assert !Matches(routes[0].path, path);
      forall j | 0 <= j < k - 1
        ensures !Matches(routes[1..][j].path, path)
      {
        assert routes[1..][j] == routes[j + 1];
      }
      LookupFinds(routes[1..], path, k - 1);
    }
  }

  lemma StudentDashboardRoute()
    ensures Lookup(Routes, "/student/dashboard") == Some(Route("/student/dashboard", true, Some(StudentRole), StudentDashboard))
  {
    assert StartsWith(AsciiLower("/student/dashboard"), "/student/");
    forall j | 0 <= j < 4
      ensures !Matches(Routes[j].path, "/student/dashboard")
    {
      if Matches(Routes[j].path, "/student/dashboard") {
        PublicMatchArea(j, "/student/dashboard");
      }
    }
    assert MatchFrom("/student/dashboard", "/student/dashboard", 9);
    LookupFinds(Routes, "/student/dashboard", 4);
  }

  lemma StaffDashboardRoute()
    ensures Lookup(Routes, "/staff/dashboard") == Some(Route("/staff/dashboard", true, Some(StaffRole), StaffDashboard))
  {
    assert StartsWith(AsciiLower("/staff/dashboard"), "/staff/");
    forall j | 0 <= j < 8
      ensures !Matches(Routes[j].path, "/staff/dashboard")
    {
      if Matches(Routes[j].path, "/staff/dashboard") {
        if j < 4 {
          PublicMatchArea(j, "/staff/dashboard");
        } else {
          StudentMatchArea(j, "/staff/dashboard");
        }
      }
    }
    assert MatchFrom("/staff/dashboard", "/staff/dashboard", 8);
    LookupFinds(Routes, "/staff/dashboard", 8);
  }

  /**
   * For a consistent session the catch-all never loops: its target renders,
   * a dashboard for an authenticated user and the splash page otherwise.
   */
  lemma CatchAllTargetRenders(s: AuthState)
    requires AuthContext.Consistent(s)
    ensures !s.isAuthenticated ==> Resolve(CatchAllTarget(s), s) == Render(Splash)
    ensures s.isAuthenticated && UserRole(s) == Some(StudentRole) ==>
      Resolve(CatchAllTarget(s), s) == Render(StudentDashboard)
    ensures s.isAuthenticated && UserRole(s) != Some(StudentRole) ==>
      Resolve(CatchAllTarget(s), s) == Render(StaffDashboard)
  {
    if !s.isAuthenticated {
      assert CatchAllTarget(s) == Home;
    } else if UserRole(s) == Some(StudentRole) {
      StudentDashboardRoute();
      assert ProtectedRoute(s, Some(StudentRole), StudentDashboard) == Render(StudentDashboard);
    } else {
      assert UserRole(s) == Some(StaffRole);
      StaffDashboardRoute();
      assert ProtectedRoute(s, Some(StaffRole), StaffDashboard) == Render(StaffDashboard);
    }
  }
}
