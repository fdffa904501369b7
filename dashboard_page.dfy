/** The dashboard dispatcher (client/src/app/dashboard/page.tsx): one navigation per
    effect run, chosen from the user's role. */
module DashboardPage {
  import opened Js
  import opened AuthContext
  import Navbar

  /** The single route the effect pushes. */
  function DashboardRedirect(user: Option<User>): (route: string)
    ensures route == "/login" <==> user.None? || user.value.role !in Roles
    ensures route != "/login" ==> route == Navbar.DashboardRoute(user)
  {
    if user.None? then "/login"
    else if user.value.role == "PATIENT" then "/dashboard/patient"
    else if user.value.role == "DOCTOR" then "/dashboard/doctor"
    else if user.value.role == "ADMIN" then "/dashboard/admin"
    else "/login"
  }

  /** The dispatcher and the navbar agree on the three roles; they part ways on an
      unknown role (the dispatcher sends it to `/login`, the navbar to `/dashboard`) and
      on no user (`/login` against `/dashboard`). */
  lemma DispatcherAgreesWithNavbar(user: Option<User>)
    ensures user.Some? && user.value.role in Roles ==>
              DashboardRedirect(user) == Navbar.DashboardRoute(user) &&
              DashboardRedirect(user) == RoleDashboard(user.value.role)
    ensures user.None? || user.value.role !in Roles ==>
              DashboardRedirect(user) == "/login" && Navbar.DashboardRoute(user) == "/dashboard"
  {
    Navbar.DashboardRouteIsRoleDashboard(user);
  }
}
