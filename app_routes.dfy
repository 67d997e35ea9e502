/**
 * The route table of the application shell: for a path and the current session, the
 * view rendered or the redirect taken. Paths match exactly; `*` catches every other path.
 */
module App {
  import opened Wrappers
  import opened AuthContext

  const HomePath := "/"
  const LoginPath := "/login"
  const SignupPath := "/signup"

  /** The three views the shell can mount. */
  datatype View = TodoAppView | LoginView | SignupView

  /** A route's element: a view, or a `<Navigate to=...>` redirect. */
  datatype Element = Show(view: View) | Navigate(to: string)

  /** The path at which a view is routed. */
  function PathOf(v: View): string
  {
    match v
    case TodoAppView => HomePath
    case LoginView => LoginPath
    case SignupView => SignupPath
  }

  /**
   * The element `<Routes>` picks. A view is shown only at its own path; the todo view
   * exactly when a session exists, the login and signup views exactly when none does.
   */
  function Route(path: string, user: Option<Session>): (e: Element)
    ensures e.Show? ==> path == PathOf(e.view)
    ensures e.Show? ==> (e.view == TodoAppView <==> user.Some?)
    ensures e.Navigate? ==> e.to == HomePath || e.to == LoginPath
    ensures path == HomePath ==> e.Show? == user.Some?
    ensures path == LoginPath || path == SignupPath ==> e.Show? == user.None?
    ensures path == HomePath && user.None? ==> e == Navigate(LoginPath)
    ensures (path == LoginPath || path == SignupPath) && user.Some? ==> e == Navigate(HomePath)
    ensures path != HomePath && path != LoginPath && path != SignupPath ==> e == Navigate(HomePath)
  {
    if path == HomePath then
      if user.Some? then Show(TodoAppView) else Navigate(LoginPath)
    else if path == LoginPath then
      if user.None? then Show(LoginView) else Navigate(HomePath)
    else if path == SignupPath then
      if user.None? then Show(SignupView) else Navigate(HomePath)
    else Navigate(HomePath)
  }

  /** Where the router ends up from `path` after following at most `hops` redirects. */
  function Settle(path: string, user: Option<Session>, hops: nat): Element
    decreases hops
  {
    match Route(path, user)
    case Show(v) => Show(v)
    case Navigate(to) => if hops == 0 then Navigate(to) else Settle(to, user, hops - 1)
  }

  /**
   * Every path reaches a rendered view within two redirects: the todo view with a session;
   * without one, the signup view at its own path and the login view from everywhere else.
   */
  lemma RedirectsSettle(path: string, user: Option<Session>)
    ensures Settle(path, user, 2).Show?
    ensures user.Some? ==> Settle(path, user, 2) == Show(TodoAppView)
    ensures user.None? ==>
              Settle(path, user, 2) == Show(if path == SignupPath then SignupView else LoginView)
  {
  }

  /** Two redirects are needed: an unknown path without a session goes to `/` and then to `/login`. */
  lemma UnknownPathNeedsTwoHops(user: Option<Session>)
    requires user.None?
    ensures Settle("/todos", user, 1).Navigate?
    ensures Settle("/todos", user, 2) == Show(LoginView)
  {
  }

  /** Whatever the path and the number of redirects followed, the todo view needs a session. */
  lemma {:induction false} ProtectedViewNeedsSession(path: string, user: Option<Session>, hops: nat)
    ensures Settle(path, user, hops) == Show(TodoAppView) ==> user.Some?
    decreases hops
  {
    var e := Route(path, user);
    if e.Navigate? && hops > 0 {
      ProtectedViewNeedsSession(e.to, user, hops - 1);
    }
  }
}
