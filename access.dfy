/** Who may see what: the role_required decorator, the role-based dashboard
    redirect, and the inline role checks of the maintenance and administrator
    views (myapp/views.py). */
module Access {
  import opened Wrappers

  /** The user's profile; the role column may be null. */
  datatype Profile = Profile(role: Option<string>)

  /** The requesting user: logged in or not, with or without a profile. */
  datatype User = User(authenticated: bool, profile: Option<Profile>)

  /** The role stored on the user's profile, if there is a profile and the
      role is not null. */
  function RoleOf(u: User): (r: Option<string>)
    ensures r.Some? <==> u.profile.Some? && u.profile.value.role.Some?
    ensures r.Some? ==> r.value == u.profile.value.role.value
  {
    match u.profile
    case Some(p) => p.role
    case None => None
  }

  const Administrator := "administrator"
  const MaintenanceRole := "maintenance"
  const QualityRole := "quality"

  /** The pages a view redirects to. */
  datatype Route =
    | ToLogin | ToHome
    | ToAdminDashboard | ToMaintenanceDashboard | ToQualityDashboard | ToDefaultDashboard

  /** The main dashboard: a logged-out user is sent to the login page; a
      logged-in user to the dashboard of their role, and to the default
      dashboard for any other role or when there is no profile. */
  function Dashboard(u: User): (r: Route)
    ensures !u.authenticated <==> r == ToLogin
    ensures r == ToAdminDashboard <==> u.authenticated && RoleOf(u) == Some(Administrator)
    ensures r == ToMaintenanceDashboard <==> u.authenticated && RoleOf(u) == Some(MaintenanceRole)
    ensures r == ToQualityDashboard <==> u.authenticated && RoleOf(u) == Some(QualityRole)
    ensures r == ToDefaultDashboard <==>
      u.authenticated && RoleOf(u) !in {Some(Administrator), Some(MaintenanceRole), Some(QualityRole)}
  {
    if !u.authenticated then ToLogin
    else match u.profile
      case None => ToDefaultDashboard
      case Some(p) =>
        if p.role == Some(Administrator) then ToAdminDashboard
        else if p.role == Some(MaintenanceRole) then ToMaintenanceDashboard
        else if p.role == Some(QualityRole) then ToQualityDashboard
        else ToDefaultDashboard
  }

  /** What the role_required wrapper does with a request. */
  datatype Gate = RedirectToLogin | CallView | Forbidden(message: string)

  /** role_required(allowed): logged-out users go to the login page; the view
      runs exactly when the profile's role is one of the allowed roles;
      everyone else is refused. */
  function RoleRequired(u: User, allowed: seq<string>): (r: Gate)
    ensures r == RedirectToLogin <==> !u.authenticated
    ensures r == CallView <==> u.authenticated && RoleOf(u).Some? && RoleOf(u).value in allowed
    ensures r.Forbidden? <==> u.authenticated && !(RoleOf(u).Some? && RoleOf(u).value in allowed)
    ensures r.Forbidden? && u.profile.None? ==> r.message == "Profile not found."
    ensures r.Forbidden? && u.profile.Some? ==> r.message == "You don't have permission to access this page."
  {
    if !u.authenticated then RedirectToLogin
    else match u.profile
      case None => Forbidden("Profile not found.")
      case Some(p) =>
        if p.role.Some? && p.role.value in allowed then CallView
        else Forbidden("You don't have permission to access this page.")
  }

  /** The inline check of the maintenance and administrator views: the user
      has a profile and its role is exactly the given one. */
  predicate HasProfileRole(u: User, role: string)
  {
    u.profile.Some? && u.profile.value.role == Some(role)
  }

  /** login_required followed by the inline check: a logged-out user is
      sent to the login page, a logged-in user without that profile role is
      sent home, and None lets the view go on. */
  function InlineCheck(u: User, role: string): (r: Option<Route>)
    ensures r == Some(ToLogin) <==> !u.authenticated
    ensures r == Some(ToHome) <==> u.authenticated && !HasProfileRole(u, role)
    ensures r.None? <==> u.authenticated && HasProfileRole(u, role)
  {
    if !u.authenticated then Some(ToLogin)
    else if !HasProfileRole(u, role) then Some(ToHome)
    else None
  }

  /** The inline check lets exactly the users through that role_required
      for that single role would, and the main dashboard sends a user who
      passes it to that role's own dashboard. */
  lemma InlineCheckAgreesWithDecorator(u: User, role: string)
    ensures InlineCheck(u, role).None? <==> RoleRequired(u, [role]) == CallView
    ensures InlineCheck(u, role) == Some(ToLogin) <==> RoleRequired(u, [role]) == RedirectToLogin
    ensures InlineCheck(u, MaintenanceRole).None? ==> Dashboard(u) == ToMaintenanceDashboard
    ensures InlineCheck(u, Administrator).None? ==> Dashboard(u) == ToAdminDashboard
  {
  }
}
