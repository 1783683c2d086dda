/** The route gates and the route table of the application shell. Decisions
    depend only on `(loading, isAuthenticated)`, never on the user's role. */
module Routes {
  import Text

  /** What a gate renders: the loading screen, a redirect, or its children. */
  datatype Decision = Pending | Redirect(to: string) | Allow

  datatype Page = LoginPage | DashboardPage | SchedulePage | GradesPage | AnnouncementsPage | ProfilePage | NotFoundPage

  /** What the router shows for a location. */
  datatype View = Loading | Navigate(to: string) | Show(page: Page)

  /** `ProtectedRoute` */
  function ProtectedRoute(loading: bool, isAuthenticated: bool): Decision {
    if loading then Pending
    else if !isAuthenticated then Redirect("/login")
    else Allow
  }

  /** `PublicRoute` */
  function PublicRoute(loading: bool, isAuthenticated: bool): Decision {
    if loading then Pending
    else if isAuthenticated then Redirect("/dashboard")
    else Allow
  }

  function Gate(d: Decision, page: Page): View {
    match d
    case Pending => Loading
    case Redirect(to) => Navigate(to)
    case Allow => Show(page)
  }

  /** The paths wrapped in `ProtectedRoute`. */
  predicate IsProtectedPath(path: string) {
    path in {"/dashboard", "/schedule", "/grades", "/announcements", "/profile"}
  }

  /** The form in which the router compares a location with a route path:
      route paths are case-insensitive, so ASCII letters are lower-cased, and
      one trailing "/" after a non-empty path is ignored. */
  function RouteKey(path: string): (k: string)
    ensures |k| == |path| || |k| == |path| - 1
    ensures k == Text.ToLower(path)[..|k|]
  {
    var lower := Text.ToLower(path);
    if |lower| > 1 && lower[|lower| - 1] == '/' then lower[..|lower| - 1] else lower
  }

  /** `AppRoutes`: the route table, matched on the route key of the path. */
  function Resolve(path: string, loading: bool, isAuthenticated: bool): View {
    var path := RouteKey(path);
    if path == "/login" then Gate(PublicRoute(loading, isAuthenticated), LoginPage)
    else if path == "/dashboard" then Gate(ProtectedRoute(loading, isAuthenticated), DashboardPage)
    else if path == "/schedule" then Gate(ProtectedRoute(loading, isAuthenticated), SchedulePage)
    else if path == "/grades" then Gate(ProtectedRoute(loading, isAuthenticated), GradesPage)
    else if path == "/announcements" then Gate(ProtectedRoute(loading, isAuthenticated), AnnouncementsPage)
    else if path == "/profile" then Gate(ProtectedRoute(loading, isAuthenticated), ProfilePage)
    else if path == "/" then Navigate("/login")
    else Show(NotFoundPage)
  }

  /** The gates' decisions: pending while loading whatever the authentication,
      otherwise redirect-or-allow, and the two gates never allow together. */
  lemma GateDecisions(loading: bool, isAuthenticated: bool)
    ensures loading ==> ProtectedRoute(loading, isAuthenticated) == Pending == PublicRoute(loading, isAuthenticated)
    ensures !loading ==> (ProtectedRoute(loading, isAuthenticated) == Allow <==> isAuthenticated)
    ensures !loading && !isAuthenticated ==> ProtectedRoute(loading, isAuthenticated) == Redirect("/login")
    ensures !loading ==> (PublicRoute(loading, isAuthenticated) == Allow <==> !isAuthenticated)
    ensures !loading && isAuthenticated ==> PublicRoute(loading, isAuthenticated) == Redirect("/dashboard")
    ensures !loading ==> (ProtectedRoute(loading, isAuthenticated) == Allow) != (PublicRoute(loading, isAuthenticated) == Allow)
  {
  }

  /** The route paths of the table are their own route keys. */
  lemma TablePathsAreKeys()
    ensures RouteKey("/login") == "/login" && RouteKey("/") == "/"
    ensures forall p :: IsProtectedPath(p) ==> RouteKey(p) == p
  {
    forall p | IsProtectedPath(p)
      ensures RouteKey(p) == p
    {
      assert Text.ToLower(p) == p;
    }
    assert Text.ToLower("/login") == "/login";
    assert Text.ToLower("/") == "/";
  }

  /** A trailing "/" and the case of ASCII letters do not change the key. */
  lemma RouteKeyIgnores(path: string)
    requires path != [] && path[|path| - 1] != '/'
    ensures RouteKey(path + "/") == RouteKey(path)
    ensures RouteKey(Text.ToLower(path)) == RouteKey(path)
  {
    var lower := Text.ToLower(path);
    assert Text.ToLower(path + "/") == lower + "/";
    assert (lower + "/")[..|lower|] == lower;
    forall i | 0 <= i < |lower|
      ensures Text.LowerChar(lower[i]) == lower[i]
    {
    }
    assert Text.ToLower(lower) == lower;
  }

  /** What the table does with each kind of path, after its route key. */
  lemma RouteTable(path: string, loading: bool, isAuthenticated: bool)
    ensures var key := RouteKey(path);
            IsProtectedPath(key) && !loading && !isAuthenticated ==> Resolve(path, loading, isAuthenticated) == Navigate("/login")
    ensures var key := RouteKey(path);
            IsProtectedPath(key) && !loading && isAuthenticated ==> Resolve(path, loading, isAuthenticated).Show?
    ensures var key := RouteKey(path);
            key == "/login" && !loading && !isAuthenticated ==> Resolve(path, loading, isAuthenticated) == Show(LoginPage)
    ensures var key := RouteKey(path);
            key == "/login" && !loading && isAuthenticated ==> Resolve(path, loading, isAuthenticated) == Navigate("/dashboard")
    ensures var key := RouteKey(path);
            (key == "/login" || IsProtectedPath(key)) && loading ==> Resolve(path, loading, isAuthenticated) == Loading
    ensures RouteKey(path) == "/" ==> Resolve(path, loading, isAuthenticated) == Navigate("/login")
    ensures var key := RouteKey(path);
            key != "/" && key != "/login" && !IsProtectedPath(key) ==> Resolve(path, loading, isAuthenticated) == Show(NotFoundPage)
  {
  }

  /** With a session, "/Dashboard/" shows the dashboard; without one,
      "/LOGIN" shows the login page. */
  lemma RouteKeyExamples()
    ensures Resolve("/Dashboard/", false, true) == Show(DashboardPage)
    ensures Resolve("/LOGIN", false, false) == Show(LoginPage)
  {
    assert Text.ToLower("/Dashboard/") == "/dashboard/";
    assert Text.ToLower("/LOGIN") == "/login";
  }

  /** Redirects never loop: once loading is over, following at most two
      redirects from any path reaches a page. */
  lemma RedirectsSettle(path: string, isAuthenticated: bool)
    ensures var v := Resolve(path, false, isAuthenticated);
            v.Show? ||
            (v.Navigate? && (Resolve(v.to, false, isAuthenticated).Show? ||
              (Resolve(v.to, false, isAuthenticated).Navigate? &&
               Resolve(Resolve(v.to, false, isAuthenticated).to, false, isAuthenticated).Show?)))
  {
    TablePathsAreKeys();
  }
}
