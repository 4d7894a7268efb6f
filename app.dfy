/** The routing table (src/App.js): a spinner while the session is being restored, the two
    sign-in pages only for visitors, the four app pages only for signed-in users, and a
    redirect to "/" for any other path. */
module App {
  import opened Text

  datatype Screen = Login | Register | Home | Create | Profile(userId: string) | PostDetail(postId: string)

  /** The route a path matches; `:userId` and `:postId` stand for one non-empty segment. */
  datatype Route =
    | LoginRoute | RegisterRoute | HomeRoute | CreateRoute
    | ProfileRoute(userId: string) | PostRoute(postId: string)
    | NoRoute

  /** One path segment: non-empty and free of "/". */
  predicate Segment(s: string) {
    s != [] && '/' !in s
  }

  function MatchRoute(path: string): (r: Route)
    ensures r.ProfileRoute? ==> path == "/profile/" + r.userId && Segment(r.userId)
    ensures r.PostRoute? ==> path == "/post/" + r.postId && Segment(r.postId)
    ensures r == LoginRoute <==> path == "/login"
    ensures r == RegisterRoute <==> path == "/register"
    ensures r == HomeRoute <==> path == "/"
    ensures r == CreateRoute <==> path == "/create"
  {
    if path == "/login" then LoginRoute
    else if path == "/register" then RegisterRoute
    else if path == "/" then HomeRoute
    else if path == "/create" then CreateRoute
    else if StartsWith(path, "/profile/") && Segment(path[9..]) then
      assert path == "/profile/" + path[9..];
      ProfileRoute(path[9..])
    else if StartsWith(path, "/post/") && Segment(path[6..]) then
      assert path == "/post/" + path[6..];
      PostRoute(path[6..])
    else NoRoute
  }

  /** The path that leads to a route. */
  function PathOf(r: Route): string
    requires !r.NoRoute?
  {
    match r
    case LoginRoute => "/login"
    case RegisterRoute => "/register"
    case HomeRoute => "/"
    case CreateRoute => "/create"
    case ProfileRoute(u) => "/profile/" + u
    case PostRoute(p) => "/post/" + p
  }

  /** A route reached by a path is reached again from its own path, and the route of every
      path that matches is read back from it exactly. */
  lemma MatchRoundTrip(path: string)
    ensures !MatchRoute(path).NoRoute? ==> PathOf(MatchRoute(path)) == path
  {
  }

  /** Every well-formed profile and post path is matched with its parameter. */
  lemma ParameterRoutes(id: string)
    requires Segment(id)
    ensures MatchRoute("/profile/" + id) == ProfileRoute(id)
    ensures MatchRoute("/post/" + id) == PostRoute(id)
  {
    var p := "/profile/" + id;
    assert StartsWith(p, "/profile/") && p[9..] == id;
    assert p != "/login" && p != "/register" && p != "/" && p != "/create" by {
      assert |p| > 9;
    }
    var q := "/post/" + id;
    assert StartsWith(q, "/post/") && q[6..] == id;
    assert !StartsWith(q, "/profile/") by {
      if |q| >= 9 { assert q[..9][3] == 's'; }
    }
    assert q != "/login" && q != "/register" && q != "/" && q != "/create" by {
      assert q[1] == 'p';
    }
  }

  /** The screen a matched route shows. */
  function ScreenOf(r: Route): Screen
    requires !r.NoRoute?
  {
    match r
    case LoginRoute => Login
    case RegisterRoute => Register
    case HomeRoute => Home
    case CreateRoute => Create
    case ProfileRoute(u) => Profile(u)
    case PostRoute(p) => PostDetail(p)
  }

  /** The sign-in pages, wrapped in PublicRoute; every other matched route is wrapped in
      ProtectedRoute. */
  predicate IsPublic(r: Route) {
    r == LoginRoute || r == RegisterRoute
  }

  predicate IsProtected(r: Route) {
    r == HomeRoute || r == CreateRoute || r.ProfileRoute? || r.PostRoute?
  }

  datatype Decision = Spinner | Render(screen: Screen) | Redirect(to: string)

  /** What the router shows for one path. */
  function Decide(loading: bool, isAuthenticated: bool, path: string): (d: Decision)
    ensures loading ==> d == Spinner
    ensures !loading && MatchRoute(path).NoRoute? ==> d == Redirect("/")
    ensures !loading && IsPublic(MatchRoute(path)) ==>
      d == (if isAuthenticated then Redirect("/") else Render(ScreenOf(MatchRoute(path))))
    ensures !loading && IsProtected(MatchRoute(path)) ==>
      d == (if isAuthenticated then Render(ScreenOf(MatchRoute(path))) else Redirect("/login"))
    ensures d.Render? && !isAuthenticated ==> d.screen == Login || d.screen == Register
    ensures d.Render? && isAuthenticated ==> d.screen != Login && d.screen != Register
    ensures d.Redirect? ==> d.to == "/" || (d.to == "/login" && !isAuthenticated)
  {
    if loading then Spinner
    else
      match MatchRoute(path)
      case LoginRoute => if !isAuthenticated then Render(Login) else Redirect("/")
      case RegisterRoute => if !isAuthenticated then Render(Register) else Redirect("/")
      case HomeRoute => if isAuthenticated then Render(Home) else Redirect("/login")
      case CreateRoute => if isAuthenticated then Render(Create) else Redirect("/login")
      case ProfileRoute(u) => if isAuthenticated then Render(Profile(u)) else Redirect("/login")
      case PostRoute(p) => if isAuthenticated then Render(PostDetail(p)) else Redirect("/login")
      case NoRoute => Redirect("/")
  }

  /** A protected page renders its own screen for a signed-in user and sends a visitor to the
      login page. */
  lemma ProtectedRoutes(path: string, isAuthenticated: bool)
    requires IsProtected(MatchRoute(path))
    ensures isAuthenticated ==> Decide(false, isAuthenticated, path) == Render(ScreenOf(MatchRoute(path)))
    ensures !isAuthenticated ==> Decide(false, isAuthenticated, path) == Redirect("/login")
  {
  }

  /** A sign-in page renders its own screen for a visitor and sends a signed-in user home. */
  lemma PublicRoutes(path: string, isAuthenticated: bool)
    requires IsPublic(MatchRoute(path))
    ensures !isAuthenticated ==> Decide(false, isAuthenticated, path) == Render(ScreenOf(MatchRoute(path)))
    ensures isAuthenticated ==> Decide(false, isAuthenticated, path) == Redirect("/")
  {
  }

  /** Following the redirects reaches a rendered page in at most two steps (an unknown path
      sends a visitor to "/" and from there to the login page). */
  lemma RedirectsSettle(isAuthenticated: bool, path: string)
    ensures var d := Decide(false, isAuthenticated, path);
      d.Redirect? ==>
        Decide(false, isAuthenticated, d.to).Render? ||
        (Decide(false, isAuthenticated, d.to).Redirect? &&
         Decide(false, isAuthenticated, Decide(false, isAuthenticated, d.to).to).Render?)
  {
  }
}
