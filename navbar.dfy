/** The navigation bar (client/src/components/Navbar.tsx): the dashboard route per role
    and which buttons are shown. */
module Navbar {
  import opened Js
  import opened AuthContext
  import RouteGuard

  /** `getDashboardRoute()` */
  function DashboardRoute(user: Option<User>): (route: string)
    ensures route == "/dashboard" <==> user.None? || user.value.role !in Roles
    ensures route in {"/dashboard", "/dashboard/patient", "/dashboard/doctor", "/dashboard/admin"}
  {
    if user.None? then "/dashboard"
    else if user.value.role == "PATIENT" then "/dashboard/patient"
    else if user.value.role == "DOCTOR" then "/dashboard/doctor"
    else if user.value.role == "ADMIN" then "/dashboard/admin"
    else "/dashboard"
  }

  datatype Buttons = DashboardAndLogout | LoginAndRegister

  /** Dashboard and Logout for a signed-in user, Login and Register otherwise. */
  function ShownButtons(user: Option<User>): (b: Buttons)
    ensures b == DashboardAndLogout <==> IsAuthenticated(user)
  {
    if user.Some? then DashboardAndLogout else LoginAndRegister
  }

  lemma LowerRoles()
    ensures Lower("PATIENT") == "patient" && Lower("DOCTOR") == "doctor" && Lower("ADMIN") == "admin"
  {
  }

  /** For the three roles the navbar's route is the one the login and the route guard
      compute from the role, `/dashboard/` + the role in lower case; any other role, or no
      user, gets the bare `/dashboard`. */
  lemma DashboardRouteIsRoleDashboard(user: Option<User>)
    ensures user.Some? && user.value.role in Roles ==> DashboardRoute(user) == RoleDashboard(user.value.role)
    ensures user.None? || user.value.role !in Roles ==> DashboardRoute(user) == "/dashboard"
  {
    if user.Some? && user.value.role in Roles {
      LowerRoles();
      var role := user.value.role;
      assert role == "PATIENT" || role == "DOCTOR" || role == "ADMIN";
    }
  }

  /** A user the guard turns away is sent to the page the navbar's Dashboard button
      opens. */
  lemma GuardRedirectMatchesNavbar(user: User, allowedRoles: seq<string>)
    requires user.role in Roles && user.role !in allowedRoles
    ensures RouteGuard.Redirect(false, Some(user), allowedRoles) == Some(DashboardRoute(Some(user)))
  {
    DashboardRouteIsRoleDashboard(Some(user));
  }
}
