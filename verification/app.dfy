/** The application shell: the `ProtectedRoute` guard and the route table
    that wraps each page in it. */
module App {
  import opened Http
  import opened Domain

  /** What `ProtectedRoute` renders. */
  datatype Decision = RedirectToLogin | RedirectToHome | RenderChildren

  /** A truthy role argument: given and not the empty string. */
  predicate RoleRequired(role: Option<string>)
  {
    role.Some? && role.value != ""
  }

  /** `ProtectedRoute({children, role})` for the current user. */
  function Guard(user: Option<User>, role: Option<string>): (d: Decision)
    ensures user.None? ==> d == RedirectToLogin
    ensures d == RenderChildren <==> user.Some? && (!RoleRequired(role) || user.value.role == role.value)
    ensures d == RedirectToHome <==> user.Some? && RoleRequired(role) && user.value.role != role.value
  {
    if user.None? then RedirectToLogin
    else if RoleRequired(role) && user.value.role != role.value then RedirectToHome
    else RenderChildren
  }

  /** Requiring a role never lets in a user that the bare login check
      would turn away, and whoever passes a role check passes the bare one. */
  lemma GuardRoleOnlyNarrows(user: Option<User>, role: Option<string>)
    ensures Guard(user, role) == RenderChildren ==> Guard(user, None) == RenderChildren
    ensures Guard(user, None) == RedirectToLogin <==> Guard(user, role) == RedirectToLogin
  {
  }

  /** The pages of the application. */
  datatype Page = LoginPage | RegisterPage | DashboardPage | GroupsPage
                | AssignmentsPage | SubmissionsPage | ProfessorDashboardPage

  /** One `<Route>`: its path, its page, whether it is wrapped in
      `ProtectedRoute`, and the `role` argument it passes. */
  datatype Route = Route(path: string, page: Page, guarded: bool, role: Option<string>)

  /** The route table, in source order. */
  const Routes: seq<Route> := [
    Route("/login", LoginPage, false, None),
    Route("/register", RegisterPage, false, None),
    Route("/", DashboardPage, true, None),
    Route("/groups", GroupsPage, true, None),
    Route("/assignments", AssignmentsPage, true, None),
    Route("/submissions", SubmissionsPage, true, None),
    Route("/professor", ProfessorDashboardPage, true, Some(Professor))
  ]

  /** The first route whose path is `path`. */
  function Match(routes: seq<Route>, path: string): (r: Option<Route>)
    ensures r.Some? ==> r.value in routes && r.value.path == path
    ensures r.None? ==> forall i :: 0 <= i < |routes| ==> routes[i].path != path
  {
    if routes == [] then None
    else if routes[0].path == path then Some(routes[0])
    else Match(routes[1..], path)
  }

  /** A route whose path no earlier route has is the one matched. */
  lemma {:induction false} MatchFinds(routes: seq<Route>, i: int)
    requires 0 <= i < |routes|
    requires forall j :: 0 <= j < i ==> routes[j].path != routes[i].path
    ensures Match(routes, routes[i].path) == Some(routes[i])
  {
    if i > 0 {
      MatchFinds(routes[1..], i - 1);
    }
  }

  /** Every path of the table is matched by its own route. */
  lemma RoutesMatch(i: int)
    requires 0 <= i < |Routes|
    ensures Match(Routes, Routes[i].path) == Some(Routes[i])
  {
    MatchFinds(Routes, i);
  }

  /** What the browser shows at a location. */
  datatype Screen = Shows(page: Page) | Redirect(to: string) | Blank

  /** Visiting `path` with the current user: an unknown path renders no
      route at all, an unguarded route renders its page, a guarded one
      goes through `ProtectedRoute`. */
  function Visit(path: string, user: Option<User>): Screen
  {
    match Match(Routes, path)
    case None => Blank
    case Some(route) =>
      if !route.guarded then Shows(route.page)
      else match Guard(user, route.role)
        case RedirectToLogin => Redirect("/login")
        case RedirectToHome => Redirect("/")
        case RenderChildren => Shows(route.page)
  }

  /** Only /professor asks for a role, and that role is 'professor';
      /login and /register are the only unguarded routes; every other route
      asks for a login only. */
  lemma RouteRequirements(i: int)
    requires 0 <= i < |Routes|
    ensures RoleRequired(Routes[i].role) <==> Routes[i].path == "/professor"
    ensures RoleRequired(Routes[i].role) ==> Routes[i].role.value == Professor
    ensures !Routes[i].guarded <==> Routes[i].path in {"/login", "/register"}
  {
  }

  /** What the guard keeps out: an unknown path shows nothing; only the
      login and register pages are shown without a user; only a professor
      is shown the professor dashboard. */
  lemma VisitGuards(path: string, user: Option<User>)
    ensures Visit(path, user) == Blank <==> forall i :: 0 <= i < |Routes| ==> Routes[i].path != path
    ensures user.None? && Visit(path, user).Shows? ==> Visit(path, user).page in {LoginPage, RegisterPage}
    ensures Visit(path, user) == Shows(ProfessorDashboardPage) ==> user.Some? && user.value.role == Professor
  {
    match Match(Routes, path)
    case None =>
    case Some(route) =>
      var i :| 0 <= i < |Routes| && Routes[i] == route;
      RouteRequirements(i);
  }

  /** The guard's effect on each kind of visitor: without a user every
      guarded page sends to /login; a logged-in user sees every guarded page
      except /professor, which only a professor sees and which sends anyone
      else to /. */
  lemma VisitByRole(path: string, user: Option<User>)
    requires Match(Routes, path).Some? && Match(Routes, path).value.guarded
    ensures user.None? ==> Visit(path, user) == Redirect("/login")
    ensures user.Some? && path != "/professor" ==> Visit(path, user) == Shows(Match(Routes, path).value.page)
    ensures user.Some? && path == "/professor" ==>
      Visit(path, user) == (if user.value.role == Professor then Shows(ProfessorDashboardPage) else Redirect("/"))
  {
    var route := Match(Routes, path).value;
    var i :| 0 <= i < |Routes| && Routes[i] == route;
    RouteRequirements(i);
  }

  /** Every redirect lands: following it once reaches a page that is shown,
      so no visitor is bounced between guards. */
  lemma RedirectsLand(path: string, user: Option<User>)
    requires Visit(path, user).Redirect?
    ensures Visit(Visit(path, user).to, user).Shows?
  {
    var route := Match(Routes, path).value;
    var i :| 0 <= i < |Routes| && Routes[i] == route;
    RouteRequirements(i);
    if user.None? {
      assert Visit(path, user) == Redirect("/login");
      assert Match(Routes, "/login") == Some(Routes[0]);
    } else {
      assert Visit(path, user) == Redirect("/");
      assert Match(Routes, "/") == Some(Routes[2]);
    }
  }
}
