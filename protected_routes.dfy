/**
 * The route table rendered inside the authenticated shell: for the current
 * role and path, render a page or redirect. Everything is a conditional on
 * `user?.role`; there is no state.
 */
module ProtectedRoutes {
  import opened Roles

  const Root: string := "/"
  const DashboardPath: string := "/dashboard"
  const AuditsPath: string := "/audits"
  const PaymentsPath: string := "/payment-processes"
  const BankOrdersPath: string := "/bank-orders"
  const DocumentGeneratorPath: string := "/document-generator"
  const NormsManualsPath: string := "/norms-manuals"
  const UsersPath: string := "/users"
  const AuditedDashboardPath: string := "/audited-dashboard"
  const NotificationsPath: string := "/notifications"
  const ReportsPath: string := "/reports"
  const AccessRequestsPath: string := "/access-requests"
  const ResponsesPath: string := "/responses"

  datatype Page =
    | DashboardPage | AuditsPage | PaymentsPage | BankOrdersPage | DocumentGeneratorPage
    | NormsAndManualsPage | UsersPage | AuditedDashboardPage | NotFoundPage

  /** What a `<Route>` element produces: a page, or `<Navigate to=...>`. */
  datatype Element = Render(page: Page) | Redirect(to: string)

  /** The five internal pages guarded by "role is not Audited". */
  predicate IsInternalPath(path: string) {
    path == DashboardPath || path == AuditsPath || path == PaymentsPath
    || path == BankOrdersPath || path == DocumentGeneratorPath
  }

  /** The four audited-menu paths that have no page yet. */
  predicate IsPlaceholderPath(path: string) {
    path == NotificationsPath || path == ReportsPath || path == AccessRequestsPath || path == ResponsesPath
  }

  /** Every path the table names explicitly; anything else falls to `*`. */
  predicate IsListedPath(path: string) {
    path == Root || IsInternalPath(path) || path == NormsManualsPath || path == UsersPath
    || path == AuditedDashboardPath || IsPlaceholderPath(path)
  }

  /** `getDefaultRoute`. */
  function DefaultRoute(role: Role): (r: string)
    ensures r == AuditedDashboardPath <==> role == Audited
    ensures r == DashboardPath <==> role != Audited
  {
    if role == Audited then AuditedDashboardPath else DashboardPath
  }

  function InternalPage(path: string): Page
    requires IsInternalPath(path)
  {
    if path == DashboardPath then DashboardPage
    else if path == AuditsPath then AuditsPage
    else if path == PaymentsPath then PaymentsPage
    else if path == BankOrdersPath then BankOrdersPage
    else DocumentGeneratorPage
  }

  /** The `<Routes>` table: the element rendered for `path` when the role is `role`. */
  function Decide(role: Role, path: string): (e: Element)
    ensures e.Redirect? ==> e.to == DashboardPath || e.to == AuditedDashboardPath
    ensures e.Redirect? ==> path == Root || IsInternalPath(path) || path == UsersPath || path == AuditedDashboardPath
  {
    if path == Root then Redirect(DefaultRoute(role))
    else if IsInternalPath(path) then
      if role != Audited then Render(InternalPage(path)) else Redirect(AuditedDashboardPath)
    else if path == NormsManualsPath then Render(NormsAndManualsPage)
    else if path == UsersPath then
      if role == Director then Render(UsersPage) else Redirect(DashboardPath)
    else if path == AuditedDashboardPath then
      if role == Audited then Render(AuditedDashboardPage) else Redirect(DashboardPath)
    else Render(NotFoundPage)
  }

  /** Navigation that follows at most `hops` redirects. */
  function Follow(role: Role, path: string, hops: nat): Element
    decreases hops
  {
    var e := Decide(role, path);
    if e.Redirect? && hops > 0 then Follow(role, e.to, hops - 1) else e
  }

  /** `/` redirects to the default route, which renders a real page for every role. */
  lemma RootLandsOnDefaultRoute(role: Role)
    ensures Decide(role, Root) == Redirect(DefaultRoute(role))
    ensures Decide(role, DefaultRoute(role)).Render?
    ensures Decide(role, DefaultRoute(role)).page != NotFoundPage
  {
  }

  /** The five internal pages render for every role except Audited, unknown roles included. */
  lemma InternalPagesExceptAudited(role: Role, path: string)
    requires IsInternalPath(path)
    ensures Decide(role, path) == if role == Audited then Redirect(AuditedDashboardPath) else Render(InternalPage(path))
  {
  }

  /** `/norms-manuals` has no guard. */
  lemma NormsManualsUnguarded(role: Role)
    ensures Decide(role, NormsManualsPath) == Render(NormsAndManualsPage)
  {
  }

  /** `/users` renders exactly for the Director; everyone else goes to `/dashboard`. */
  lemma UsersOnlyForDirector(role: Role)
    ensures Decide(role, UsersPath) == if role == Director then Render(UsersPage) else Redirect(DashboardPath)
  {
  }

  /** `/audited-dashboard` renders exactly for Audited; everyone else goes to `/dashboard`. */
  lemma AuditedDashboardOnlyForAudited(role: Role)
    ensures Decide(role, AuditedDashboardPath) == if role == Audited then Render(AuditedDashboardPage) else Redirect(DashboardPath)
  {
  }

  /** The four placeholder paths and every unlisted path render the not-found page, for every role. */
  lemma UnlistedRendersNotFound(role: Role, path: string)
    requires IsPlaceholderPath(path) || !IsListedPath(path)
    ensures Decide(role, path) == Render(NotFoundPage)
  {
  }

  /** Which pages a role can see at all: the not-found page aside, a path renders iff this holds. */
  predicate Reaches(role: Role, page: Page) {
    match page
    case UsersPage => role == Director
    case AuditedDashboardPage => role == Audited
    case NormsAndManualsPage => true
    case NotFoundPage => true
    case _ => role != Audited
  }

  /** The table never renders a page the role may not reach. */
  lemma RenderedPagesAreReachable(role: Role, path: string)
    ensures Decide(role, path).Render? ==> Reaches(role, Decide(role, path).page)
  {
  }

  /**
   * The table is fail-open: a role string that is none of the three known
   * ones (or no user at all) still sees every internal page and the norms.
   */
  lemma UnknownRoleSeesInternalPages(raw: Wrappers.Option<string>, path: string)
    requires IsInternalPath(path) || path == NormsManualsPath
    ensures Decide(Other(raw), path).Render?
    ensures Decide(Other(raw), path).page != NotFoundPage
  {
  }

  /**
   * Redirect chains end at a rendered element after at most two hops, for
   * every role and path: the only targets are the two landing routes, and
   * each of them renders or redirects to the other one, which renders.
   */
  lemma {:induction false} RedirectChainsSettle(role: Role, path: string)
    ensures Follow(role, path, 2).Render?
    ensures Follow(role, path, 2) == Follow(role, path, 3)
  {
    var e := Decide(role, path);
    if e.Redirect? {
      LandingRouteSettles(role, e.to);
    }
  }

  lemma LandingRouteSettles(role: Role, to: string)
    requires to == DashboardPath || to == AuditedDashboardPath
    ensures Follow(role, to, 1).Render?
    ensures Follow(role, to, 1) == Follow(role, to, 2)
  {
    var e := Decide(role, to);
    if e.Redirect? {
      assert Decide(role, e.to).Render?;
    }
  }

  /** Two hops can be needed: Audited at `/users` goes to `/dashboard`, then to `/audited-dashboard`. */
  lemma TwoHopsCanBeNeeded()
    ensures Follow(Audited, UsersPath, 1) == Redirect(AuditedDashboardPath)
    ensures Follow(Audited, UsersPath, 2) == Render(AuditedDashboardPage)
  {
  }
}
