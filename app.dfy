/**
 * The top-level routing decisions: the `ProtectedRoute` guard around the
 * authenticated shell, and the `/login` route.
 */
module App {
  import opened Wrappers
  import opened Roles
  import ProtectedRoutes

  const LoginPath: string := "/login"

  /** What the guard renders: the placeholder, a redirect, or its children. */
  datatype GuardView = Placeholder | RedirectTo(to: string) | Children

  /** `ProtectedRoute` with its `allowedRoles` prop (default `[]`). */
  function ProtectedRoute(loading: bool, isAuthenticated: bool, user: Option<User>, allowedRoles: seq<string>): (v: GuardView)
    ensures loading <==> v == Placeholder
    ensures !loading && !isAuthenticated ==> v == RedirectTo(LoginPath)
  {
    if loading then Placeholder
    else if !isAuthenticated then RedirectTo(LoginPath)
    else if |allowedRoles| > 0 && user.Some? && user.value.role !in allowedRoles then
      if user.value.role == AuditedRole then RedirectTo(ProtectedRoutes.AuditedDashboardPath)
      else RedirectTo(ProtectedRoutes.DashboardPath)
    else Children
  }

  /**
   * A role left out of a non-empty `allowedRoles` is sent to the same route
   * `getDefaultRoute` gives it, and that route renders a real page for it.
   */
  lemma GuardRedirectIsDefaultRoute(isAuthenticated: bool, user: User, allowedRoles: seq<string>)
    requires isAuthenticated && |allowedRoles| > 0 && user.role !in allowedRoles
    ensures ProtectedRoute(false, isAuthenticated, Some(user), allowedRoles)
            == RedirectTo(ProtectedRoutes.DefaultRoute(RoleOf(Some(user))))
    ensures ProtectedRoutes.Decide(RoleOf(Some(user)), ProtectedRoutes.DefaultRoute(RoleOf(Some(user)))).Render?
  {
  }

  /** With the default `allowedRoles = []` (the only use) every authenticated user gets the children. */
  lemma EmptyAllowedRolesAdmitsEveryone(isAuthenticated: bool, user: Option<User>)
    requires isAuthenticated
    ensures ProtectedRoute(false, isAuthenticated, user, []) == Children
  {
  }

  /** A role listed in `allowedRoles` gets the children. */
  lemma AllowedRoleAdmitted(user: User, allowedRoles: seq<string>)
    requires user.role in allowedRoles
    ensures ProtectedRoute(false, true, Some(user), allowedRoles) == Children
  {
  }

  datatype LoginView = ShowLoginPage | RedirectToRoot

  /** The `/login` route element. */
  function LoginRoute(isAuthenticated: bool): (v: LoginView)
    ensures v == ShowLoginPage <==> !isAuthenticated
  {
    if !isAuthenticated then ShowLoginPage else RedirectToRoot
  }

  /** The part of the auth context `App` itself reads: `loading` and `isAuthenticated`. */
  datatype AuthView = AuthView(loading: bool, isAuthenticated: bool)

  /** What `App` renders at `/login`: its own loading placeholder, or the route element. */
  datatype AppView = AppPlaceholder | AtLogin(view: LoginView)

  /** What `App` renders at `/login`, given the context it reads. */
  function AppAtLogin(ctx: AuthView): (v: AppView)
    ensures v == AppPlaceholder <==> ctx.loading
    ensures v == AtLogin(ShowLoginPage) <==> !ctx.loading && !ctx.isAuthenticated
    ensures v == AtLogin(RedirectToRoot) <==> !ctx.loading && ctx.isAuthenticated
  {
    if ctx.loading then AppPlaceholder else AtLogin(LoginRoute(ctx.isAuthenticated))
  }

  /**
   * AS WRITTEN: `App` calls `useAuth()` outside the `AuthProvider` it
   * renders, so it reads the context's default value `{}`: `loading` and
   * `isAuthenticated` are both `undefined`, hence falsy, whatever the session.
   */
  function AppContextAsWritten(user: Option<User>, loading: bool): (ctx: AuthView)
    ensures !ctx.loading && !ctx.isAuthenticated
  {
    AuthView(false, false)
  }

  /** As written, the login page is shown even to a signed-in user. */
  lemma LoginShownToSignedInUserAsWritten(u: User)
    ensures AppAtLogin(AppContextAsWritten(Some(u), false)) == AtLogin(ShowLoginPage)
  {
  }

  /** CORRECTED: `App` reads the provider's own state (`isAuthenticated: !!user`). */
  function AppContext(user: Option<User>, loading: bool): (ctx: AuthView)
    ensures ctx.loading == loading
    ensures ctx.isAuthenticated <==> user.Some?
  {
    AuthView(loading, user.Some?)
  }

  /**
   * With the provider's state, the login page is rendered exactly to a
   * settled signed-out session; a signed-in user is sent to `/`, and while
   * the session is loading no decision is made.
   */
  lemma LoginPageOnlyWhenSignedOut(user: Option<User>, loading: bool)
    ensures AppAtLogin(AppContext(user, loading)) == AtLogin(ShowLoginPage) <==> !loading && user.None?
    ensures !loading && user.Some? ==> AppAtLogin(AppContext(user, loading)) == AtLogin(RedirectToRoot)
    ensures loading ==> AppAtLogin(AppContext(user, loading)) == AppPlaceholder
  {
  }
}
