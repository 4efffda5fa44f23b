/** The application's route table: which page each path renders, and under which guard. */
module Routes {
  import opened Outcomes
  import opened Sessions
  import opened AccessPolicy

  datatype Screen = LoginPage | EmpresasPage | ProductosPage | InventarioPage

  /** A route renders its page directly, or inside the guard with a role list. */
  datatype Guard = Unguarded | Guarded(roles: seq<string>)

  datatype Route = Route(path: string, guard: Guard, page: Screen)

  /** The declared routes, in declaration order. */
  const Table: seq<Route> := [
    Route("/", Unguarded, LoginPage),
    Route("/empresas", Guarded([Admin, Externo]), EmpresasPage),
    Route("/productos", Guarded([Admin]), ProductosPage),
    Route("/inventario", Guarded([Admin]), InventarioPage)
  ]

  /** The route declared for a path in a table, if any. */
  function Lookup(routes: seq<Route>, path: string): (r: Option<Route>)
    ensures r.Some? ==> r.value in routes && r.value.path == path
    ensures r.None? ==> forall k | 0 <= k < |routes| :: routes[k].path != path
  {
    if routes == [] then None
    else if routes[0].path == path then Some(routes[0])
    else Lookup(routes[1..], path)
  }

  /** What the router shows for a path: a page, a redirect, or nothing when no route matches. */
  datatype Navigation = Render(page: Screen) | RedirectTo(target: string) | NoMatch

  /**
   * Only the login page renders without a session; a redirect goes to the login
   * page or the forbidden view; nothing matches exactly the undeclared paths.
   */
  function Resolve(user: Option<Session>, path: string): (r: Navigation)
    ensures r.NoMatch? <==> forall k | 0 <= k < |Table| :: Table[k].path != path
    ensures r.RedirectTo? ==> r.target == LoginPath || r.target == ForbiddenPath
    ensures r.Render? && user.None? ==> path == LoginPath && r.page == LoginPage
  {
    match Lookup(Table, path)
    case None => NoMatch
    case Some(route) =>
      match route.guard
      case Unguarded => Render(route.page)
      case Guarded(roles) =>
        match Authorize(user, Some(roles))
        case Allow => Render(route.page)
        case Redirect(target) => RedirectTo(target)
  }

  /** The route each declared path finds. */
  lemma DeclaredLookups()
    ensures Lookup(Table, "/") == Some(Table[0])
    ensures Lookup(Table, "/empresas") == Some(Table[1])
    ensures Lookup(Table, "/productos") == Some(Table[2])
    ensures Lookup(Table, "/inventario") == Some(Table[3])
  {
    assert Table[1..][1..] == Table[2..];
    assert Table[2..][1..] == Table[3..];
    assert Lookup(Table[3..], "/inventario") == Some(Table[3]);
    assert Lookup(Table[2..], "/productos") == Some(Table[2]);
    assert Lookup(Table[2..], "/inventario") == Some(Table[3]);
  }

  /** The paths of the table are distinct, so the first match is the only one. */
  lemma PathsAreDistinct()
    ensures forall i, j | 0 <= i < j < |Table| :: Table[i].path != Table[j].path
  {
  }

  /** The login page is unguarded: every caller sees it. */
  lemma LoginIsUnguarded(user: Option<Session>)
    ensures Resolve(user, LoginPath) == Render(LoginPage)
  {
  }

  /** Both roles reach the companies page. */
  lemma EmpresasForBothRoles(s: Session)
    requires s.role == Admin || s.role == Externo
    ensures Resolve(Some(s), "/empresas") == Render(EmpresasPage)
  {
    DeclaredLookups();
  }

  /** Products and inventory are for ADMIN only; any other role is sent to the forbidden view. */
  lemma AdminOnlyPages(s: Session)
    ensures Resolve(Some(s), "/productos") == (if s.role == Admin then Render(ProductosPage) else RedirectTo(ForbiddenPath))
    ensures Resolve(Some(s), "/inventario") == (if s.role == Admin then Render(InventarioPage) else RedirectTo(ForbiddenPath))
  {
    DeclaredLookups();
  }

  /** An EXTERNO session is never shown the products or inventory page. */
  lemma ExternoNeverOnAdminPages(s: Session, path: string)
    requires s.role == Externo
    requires path == "/productos" || path == "/inventario"
    ensures Resolve(Some(s), path) == RedirectTo(ForbiddenPath)
  {
    AdminOnlyPages(s);
  }

  /** Every guarded route sends an anonymous caller to the login page. */
  lemma GuardedRoutesSendAnonymousToLogin(path: string)
    requires Lookup(Table, path).Some? && Lookup(Table, path).value.guard.Guarded?
    ensures Resolve(None, path) == RedirectTo(LoginPath)
  {
  }

  /** No route is declared for the forbidden view the guard redirects to. */
  lemma ForbiddenHasNoRoute(user: Option<Session>)
    ensures Lookup(Table, ForbiddenPath) == None
    ensures Resolve(user, ForbiddenPath) == NoMatch
  {
  }

  /** A redirect is a single hop: its target renders the login page or matches no route. */
  lemma RedirectsEndInOneHop(user: Option<Session>, path: string)
    requires Resolve(user, path).RedirectTo?
    ensures Resolve(user, Resolve(user, path).target) in {Render(LoginPage), NoMatch}
  {
    var target := Resolve(user, path).target;
    assert target == LoginPath || target == ForbiddenPath;
    if target == ForbiddenPath {
      ForbiddenHasNoRoute(user);
    }
  }

  /** Where login lands: the companies page for ADMIN and EXTERNO, a blank forbidden view otherwise. */
  lemma LoginLanding(s: Session)
    ensures Resolve(Some(s), "/empresas") ==
      (if s.role == Admin || s.role == Externo then Render(EmpresasPage) else RedirectTo(ForbiddenPath))
  {
    DeclaredLookups();
  }
}
