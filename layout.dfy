/**
 * The authenticated shell: the role's sidebar menu, the header title and
 * the logout button.
 */
module Layout {
  import opened Wrappers
  import opened Roles
  import opened ProtectedRoutes
  import AuthContext

  datatype MenuItem = MenuItem(path: string, caption: string, icon: string)

  const AuditedMenu: seq<MenuItem> := [
    MenuItem(AuditedDashboardPath, "Dashboard", "📊"),
    MenuItem(NotificationsPath, "Notificações", "🔔"),
    MenuItem(ReportsPath, "Relatórios e notas de auditorias", "📝"),
    MenuItem(AccessRequestsPath, "Requisições de acesso a outros documentos", "🔑"),
    MenuItem(ResponsesPath, "Respostas/Manifestações", "💬")
  ]

  const InternalMenu: seq<MenuItem> := [
    MenuItem(DashboardPath, "Dashboard", "📊"),
    MenuItem(AuditsPath, "Auditorias", "🔍"),
    MenuItem(PaymentsPath, "Processos de Pagamento Continuado", "💰"),
    MenuItem(BankOrdersPath, "Conferência de Ordens Bancárias", "🏦"),
    MenuItem(DocumentGeneratorPath, "Gerador de Documentos", "📄"),
    MenuItem(NormsManualsPath, "Normas e Manuais", "📚")
  ]

  const UsersItem: MenuItem := MenuItem(UsersPath, "Usuários", "👥")

  /** `getMenuItems`: the audited menu, or the internal one with Users pushed for the Director. */
  function MenuItems(role: Role): (items: seq<MenuItem>)
    ensures role == Audited ==> items == AuditedMenu
    ensures role != Audited ==> |items| == if role == Director then 7 else 6
    ensures role != Audited ==> items[..6] == InternalMenu
  {
    if role == Audited then AuditedMenu
    else if role == Director then InternalMenu + [UsersItem]
    else InternalMenu
  }

  function Paths(items: seq<MenuItem>): (ps: seq<string>)
    ensures |ps| == |items| && forall i :: 0 <= i < |items| ==> ps[i] == items[i].path
  {
    seq(|items|, i requires 0 <= i < |items| => items[i].path)
  }

  predicate DistinctPaths(items: seq<MenuItem>) {
    forall i, j :: 0 <= i < j < |items| ==> items[i].path != items[j].path
  }

  /** `menuItems.find(item => item.path === path)`: the first entry with that path. */
  function FindByPath(items: seq<MenuItem>, path: string): (r: Option<MenuItem>)
    ensures r.Some? ==> r.value in items && r.value.path == path
    ensures r.None? <==> forall i :: 0 <= i < |items| ==> items[i].path != path
    ensures r.Some? ==> exists k :: 0 <= k < |items| && items[k] == r.value
                          && forall i :: 0 <= i < k ==> items[i].path != path
  {
    if items == [] then None
    else if items[0].path == path then Some(items[0])
    else
      var r := FindByPath(items[1..], path);
      if r.Some? then
        var k :| 0 <= k < |items[1..]| && items[1..][k] == r.value
                 && forall i :: 0 <= i < k ==> items[1..][i].path != path;
        assert items[k + 1] == r.value && forall i :: 0 <= i < k + 1 ==> items[i].path != path;
        r
      else r
  }

  /** The header: the label of the menu entry for the current path, else 'Dashboard'. */
  function HeaderTitle(role: Role, currentPath: string): (title: string)
    ensures title != ""
    ensures var items := MenuItems(role);
      title == "Dashboard" || exists i :: 0 <= i < |items| && items[i].path == currentPath && items[i].caption == title
  {
    match FindByPath(MenuItems(role), currentPath)
    case Some(item) => if item.caption != "" then item.caption else "Dashboard"
    case None => "Dashboard"
  }

  /** No role's menu lists a path twice. */
  lemma MenuPathsDistinct(role: Role)
    ensures DistinctPaths(MenuItems(role))
  {
    var items := MenuItems(role);
    var ps := Paths(items);
    if role == Audited {
      assert ps == [AuditedDashboardPath, NotificationsPath, ReportsPath, AccessRequestsPath, ResponsesPath];
    } else if role == Director {
      assert ps == [DashboardPath, AuditsPath, PaymentsPath, BankOrdersPath, DocumentGeneratorPath, NormsManualsPath, UsersPath];
    } else {
      assert ps == [DashboardPath, AuditsPath, PaymentsPath, BankOrdersPath, DocumentGeneratorPath, NormsManualsPath];
    }
  }

  /** `/users` is in a role's menu exactly when the role is the Director. */
  lemma UsersEntryOnlyForDirector(role: Role)
    ensures (exists i :: 0 <= i < |MenuItems(role)| && MenuItems(role)[i].path == UsersPath) <==> role == Director
  {
    var items := MenuItems(role);
    if role == Director {
      assert items[6].path == UsersPath;
    } else {
      forall i | 0 <= i < |items| ensures items[i].path != UsersPath {
      }
    }
  }

  /**
   * The menu never advertises a path the route table would redirect away
   * from: every entry renders (a page, or for the audited placeholders the
   * not-found page) without redirect.
   */
  lemma MenuPathsRenderWithoutRedirect(role: Role, item: MenuItem)
    requires item in MenuItems(role)
    ensures Decide(role, item.path).Render?
  {
    var items := MenuItems(role);
    var i :| 0 <= i < |items| && items[i] == item;
    if role == Audited {
      assert i < 5;
    } else {
      assert i < 7;
    }
  }

  /** The title of a menu path is that entry's label (paths being distinct, the first match is the entry). */
  lemma {:induction false} HeaderTitleOfMenuEntry(role: Role, item: MenuItem)
    requires item in MenuItems(role)
    ensures HeaderTitle(role, item.path) == item.caption
  {
    var items := MenuItems(role);
    MenuPathsDistinct(role);
    var i :| 0 <= i < |items| && items[i] == item;
    var r := FindByPath(items, item.path);
    var k :| 0 <= k < |items| && items[k] == r.value && forall j :: 0 <= j < k ==> items[j].path != item.path;
    assert k == i;
    assert item.caption != "" by {
      assert forall j :: 0 <= j < |items| ==> items[j].caption != "";
    }
  }

  /** A path outside the menu is titled 'Dashboard'. */
  lemma HeaderTitleOffMenu(role: Role, path: string)
    requires forall item :: item in MenuItems(role) ==> item.path != path
    ensures HeaderTitle(role, path) == "Dashboard"
  {
  }

  /** `handleLogout`: sign out, then navigate to `/login`. */
  method HandleLogout(auth: AuthContext.AuthProvider) returns (target: string)
    modifies auth, auth.store
    ensures target == "/login"
    ensures !auth.IsAuthenticated() && auth.store.IsEmpty() && auth.loading == old(auth.loading)
  {
    auth.SignOut();
    target := "/login";
  }
}
