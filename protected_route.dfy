/**
 * The route guard wrapped around every dashboard page, and the part of the route table
 * that its redirects land on.
 */
module ProtectedRoute {
  import opened Wrappers
  import opened AuthContext

  const LoginPath := "/login"
  const DoctorDashboard := "/doctor/dashboard"
  const PatientDashboard := "/patient/dashboard"

  /** What the guard renders: the loading spinner, a redirect to the login page that
      remembers where the visitor was going, a redirect elsewhere, or the page itself. */
  datatype Decision = Spinner | RedirectToLogin(from: string) | Redirect(to: string) | RenderChildren

  /** `user?.role`. */
  function RoleOf(user: Option<AppUser>): Option<string> {
    if user.Some? then Some(user.value.role) else None
  }

  /** `ProtectedRoute` for a page at `location`, with an optional required role. */
  function Guard(auth: AuthState, allowedRole: Option<string>, location: string): (d: Decision)
    ensures auth.isLoading ==> d == Spinner
    ensures !auth.isLoading && !auth.isAuthenticated ==> d == RedirectToLogin(location)
    ensures d == RenderChildren <==>
      !auth.isLoading && auth.isAuthenticated && (allowedRole.None? || RoleOf(auth.user) == allowedRole)
    ensures d.Redirect? <==>
      !auth.isLoading && auth.isAuthenticated && allowedRole.Some? && RoleOf(auth.user) != allowedRole
    ensures d.Redirect? ==> (d.to == DoctorDashboard <==> RoleOf(auth.user) == Some("doctor"))
    ensures d.Redirect? ==> (d.to == PatientDashboard <==> RoleOf(auth.user) != Some("doctor"))
  {
    if auth.isLoading then Spinner
    else if !auth.isAuthenticated then RedirectToLogin(location)
    else if allowedRole.Some? && RoleOf(auth.user) != allowedRole then
      Redirect(if RoleOf(auth.user) == Some("doctor") then DoctorDashboard else PatientDashboard)
    else RenderChildren
  }

  /** The role each dashboard route requires. */
  function RouteRole(path: string): Option<string> {
    if path == PatientDashboard then Some("patient")
    else if path == DoctorDashboard then Some("doctor")
    else None
  }

  /** A patient or doctor sent away from a page of the other role lands on a page the
      guard lets them into. */
  lemma RedirectLandsOnOwnDashboard(auth: AuthState, allowedRole: Option<string>, location: string)
    requires auth.user.Some? && auth.isAuthenticated
    requires auth.user.value.role == "patient" || auth.user.value.role == "doctor"
    requires Guard(auth, allowedRole, location).Redirect?
    ensures var target := Guard(auth, allowedRole, location).to;
      Guard(auth, RouteRole(target), target) == RenderChildren
  {
  }

  /** Any other role (the metadata is not checked) is sent to the patient dashboard,
      whose guard sends it there again. */
  lemma OtherRoleRedirectsAgain(auth: AuthState, allowedRole: Option<string>, location: string)
    requires auth.user.Some? && auth.isAuthenticated && !auth.isLoading
    requires auth.user.value.role != "patient" && auth.user.value.role != "doctor"
    requires allowedRole == Some("patient") || allowedRole == Some("doctor")
    ensures Guard(auth, allowedRole, location) == Redirect(PatientDashboard)
    ensures Guard(auth, RouteRole(PatientDashboard), PatientDashboard) == Redirect(PatientDashboard)
  {
  }

  /** For the provider's own state, the guard's decision follows the user record:
      a signed-in user is never sent to the login page. */
  lemma SignedInNeverSentToLogin(p: AuthProvider, allowedRole: Option<string>, location: string)
    requires p.user.Some?
    ensures !Guard(p.Value(), allowedRole, location).RedirectToLogin?
  {
  }
}
