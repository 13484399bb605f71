/** The router's route table and its `beforeEach` navigation guard. */
module Router {
  import opened Base

  datatype RouteMeta = RouteMeta(requiresGuest: bool, requiresAuth: bool)

  datatype Route = Route(path: string, name: string, meta: RouteMeta)

  /** The single `next` call a navigation makes: `next()` or `next(path)`. */
  datatype Navigation = Proceed | Redirect(path: string)

  function Routes(): seq<Route>
  {
    [ Route("/", "Welcome", RouteMeta(false, false)),
      Route("/login", "Login", RouteMeta(true, false)),
      Route("/register", "Register", RouteMeta(true, false)),
      Route("/settings", "Settings", RouteMeta(false, true)) ]
  }

  /** beforeEach: the guest check, then the authentication check, then proceed. */
  function Guard(to: RouteMeta, isAuthenticated: bool): (r: Navigation)
    ensures r == Redirect("/") <==> to.requiresGuest && isAuthenticated
    ensures r == Redirect("/login") <==> !(to.requiresGuest && isAuthenticated) && to.requiresAuth && !isAuthenticated
    ensures r == Proceed <==> !(to.requiresGuest && isAuthenticated) && !(to.requiresAuth && !isAuthenticated)
    ensures r.Redirect? ==> r.path == "/" || r.path == "/login"
  {
    if to.requiresGuest && isAuthenticated then Redirect("/")
    else if to.requiresAuth && !isAuthenticated then Redirect("/login")
    else Proceed
  }

  /** A route flagged both ways is decided by the guest check when the user is signed in. */
  lemma GuestCheckComesFirst(isAuthenticated: bool)
    ensures Guard(RouteMeta(true, true), isAuthenticated) == if isAuthenticated then Redirect("/") else Redirect("/login")
  {
  }

  /**
   * Over the app's own routes a redirect never loops: the route it leads to
   * lets the same user through.
   */
  lemma NoRedirectLoop(i: nat, isAuthenticated: bool)
    requires i < |Routes()|
    ensures Guard(Routes()[i].meta, isAuthenticated).Redirect? ==>
      exists k :: 0 <= k < |Routes()| && Routes()[k].path == Guard(Routes()[i].meta, isAuthenticated).path
                  && Guard(Routes()[k].meta, isAuthenticated) == Proceed
  {
    if Guard(Routes()[i].meta, isAuthenticated) == Redirect("/") {
      assert Routes()[0].path == "/";
    } else if Guard(Routes()[i].meta, isAuthenticated) == Redirect("/login") {
      assert Routes()[1].path == "/login";
    }
  }
}
