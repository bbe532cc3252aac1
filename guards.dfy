/** The client-side guards: `RoleBasedRedirect` (components/role-based-redirect.tsx) and the
    layouts of the admin and agent areas (app/admin/layout.tsx, app/agent/layout.tsx), as
    functions of the auth state they read. */
module Guards {
  import opened Common
  import opened ApiClient
  import Proxy

  /** The dashboard of each role. */
  function Dashboard(role: Role): (path: string)
    ensures Proxy.IsProtectedRoute(path)
  {
    var path := match role
      case ADMIN => "/admin/dashboard"
      case AGENT => "/agent/dashboard"
      case CUSTOMER => "/customer/dashboard";
    assert StartsWith(path, Proxy.ProtectedRoutes[match role case ADMIN => 0 case AGENT => 1 case CUSTOMER => 2]);
    path
  }

  /** The one `router.push` the redirect effect makes, if any; `isAuthenticated` is `!!user`. */
  function RoleRedirect(loading: bool, user: Option<User>): (nav: Option<string>)
    ensures loading ==> nav == None
    ensures !loading && user.None? ==> nav == Some("/login")
    ensures !loading && user.Some? ==> nav == Some(Dashboard(user.value.role))
  {
    if loading then None
    else if user.None? then Some("/login")
    else Some(Dashboard(user.value.role))
  }

  /** Each role lands on its own dashboard: no two roles share one. */
  lemma DashboardsDistinct(a: Role, b: Role)
    ensures Dashboard(a) == Dashboard(b) <==> a == b
  {
    if a != b {
      assert Dashboard(a)[2] != Dashboard(b)[2];
    }
  }

  /** A signed-in user's redirect passes the route guard, whose cookie it carries. */
  lemma RedirectPassesProxy(user: User, token: string)
    requires token != ""
    ensures var nav := RoleRedirect(false, Some(user));
      nav.Some? && Proxy.Proxy(nav.value, Some(token)) == Proxy.Next
  {
    var nav := Dashboard(user.role);
    Proxy.RoutesDisjoint(nav);
  }

  /** What a guarded layout renders. */
  datatype View = Spinner | Nothing | Content

  /** The shared logic of a layout that admits one role: the redirect its effect issues and
      what it renders. */
  datatype LayoutOutcome = LayoutOutcome(redirect: Option<string>, view: View)

  function LayoutGuard(required: Role, loading: bool, user: Option<User>): (o: LayoutOutcome)
    ensures loading ==> o == LayoutOutcome(None, Spinner)
    ensures !loading ==> (o.view == Content <==> user.Some? && user.value.role == required)
    ensures !loading ==> (o.redirect.Some? <==> o.view == Nothing)
    ensures o.redirect.Some? ==> o.redirect.value == "/login"
  {
    var admitted := user.Some? && user.value.role == required;   // `user?.role === required`
    if loading then LayoutOutcome(None, Spinner)
    else if !admitted then LayoutOutcome(Some("/login"), Nothing)
    else LayoutOutcome(None, Content)
  }

  /** The admin layout: the sidebar with the page for an ADMIN. */
  function AdminLayout(loading: bool, user: Option<User>): (o: LayoutOutcome)
    ensures o.view == Spinner <==> loading
    ensures o.view == Content <==> !loading && user.Some? && user.value.role == ADMIN
    ensures o.redirect == (if !loading && !(user.Some? && user.value.role == ADMIN) then Some("/login") else None)
  {
    LayoutGuard(ADMIN, loading, user)
  }

  /** The agent layout: the page with the bottom navigation for an AGENT. */
  function AgentLayout(loading: bool, user: Option<User>): (o: LayoutOutcome)
    ensures o.view == Spinner <==> loading
    ensures o.view == Content <==> !loading && user.Some? && user.value.role == AGENT
    ensures o.redirect == (if !loading && !(user.Some? && user.value.role == AGENT) then Some("/login") else None)
  {
    LayoutGuard(AGENT, loading, user)
  }

  /** No user sees both areas, and the role redirect sends each admitted user to a dashboard
      inside the area that admits them. */
  lemma LayoutsAgreeWithRedirect(user: User)
    ensures !(AdminLayout(false, Some(user)).view == Content && AgentLayout(false, Some(user)).view == Content)
    ensures AdminLayout(false, Some(user)).view == Content ==>
      StartsWith(RoleRedirect(false, Some(user)).value, "/admin")
    ensures AgentLayout(false, Some(user)).view == Content ==>
      StartsWith(RoleRedirect(false, Some(user)).value, "/agent")
  {
  }
}
