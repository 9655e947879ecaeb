/** The header of the authenticated layout: which dashboard link it offers. */
module AuthenticatedLayout {
  import opened Wrappers
  import opened Domain
  import App

  datatype Link = Link(text: string, path: string)

  const ClientDashboardPath: string := "/client-dashboard"

  /** `getDashboardLink`: admin before helper before client; anyone else gets none. */
  function DashboardLink(user: Option<UserData>): (r: Option<Link>)
    ensures user.None? ==> r.None?
    ensures user.Some? && user.value.isAdmin ==> r == Some(Link("Admin Dashboard", App.AdminDashboardPath))
    ensures user.Some? && !user.value.isAdmin && HasRole(user.value, HelperRole) ==>
      r == Some(Link("Helper Dashboard", App.HelperDashboardPath))
    ensures user.Some? && !user.value.isAdmin && !HasRole(user.value, HelperRole) && HasRole(user.value, ClientRole) ==>
      r == Some(Link("Client Dashboard", ClientDashboardPath))
    ensures user.Some? && !user.value.isAdmin && !HasRole(user.value, HelperRole) && !HasRole(user.value, ClientRole) ==>
      r.None?
  {
    if user.None? then None
    else if user.value.isAdmin then Some(Link("Admin Dashboard", App.AdminDashboardPath))
    else if HasRole(user.value, HelperRole) then Some(Link("Helper Dashboard", App.HelperDashboardPath))
    else if HasRole(user.value, ClientRole) then Some(Link("Client Dashboard", ClientDashboardPath))
    else None
  }

  /**
   * For admins and helpers the link goes where a login lands, and for the
   * logged-in user following it shows that user's dashboard.
   */
  lemma LinkAgreesWithLogin(s: App.Session)
    requires s.isLoggedIn && s.user.Some?
    requires s.user.value.isAdmin || HasRole(s.user.value, HelperRole)
    ensures DashboardLink(s.user).Some?
    ensures DashboardLink(s.user).value.path == App.PostLoginTarget(s.user.value)
    ensures App.Show(DashboardLink(s.user).value.path, s).Layout?
  {
  }

  /** The client link points at a path with no route, so following it shows the login page. */
  lemma ClientLinkShowsLogin(s: App.Session)
    requires s.user.Some? && !s.user.value.isAdmin && !HasRole(s.user.value, HelperRole)
    requires HasRole(s.user.value, ClientRole)
    ensures DashboardLink(s.user) == Some(Link("Client Dashboard", ClientDashboardPath))
    ensures App.Show(ClientDashboardPath, s) == App.LoginScreen
  {
  }
}
