/** The route guard (client/src/components/RouteGuard.tsx): what a guarded page shows and
    where it sends a user who may not see it. */
module RouteGuard {
  import opened Js
  import opened AuthContext

  /** The navigation the guard's effect issues, if any. */
  function Redirect(loading: bool, user: Option<User>, allowedRoles: seq<string>): (r: Option<string>)
    ensures loading ==> r.None?
    ensures !loading && user.None? ==> r == Some("/login")
    ensures !loading && user.Some? && user.value.role !in allowedRoles ==>
              r == Some(RoleDashboard(user.value.role))
    ensures user.Some? && user.value.role in allowedRoles ==> r.None?
  {
    if loading then None
    else if user.None? then Some("/login")
    else if user.value.role !in allowedRoles then Some("/dashboard/" + Lower(user.value.role))
    else None
  }

  /** The guard renders its children, rather than the spinner. */
  predicate RendersChildren(loading: bool, user: Option<User>, allowedRoles: seq<string>) {
    !(loading || user.None? || user.value.role !in allowedRoles)
  }

  /** Once loading is over, the guard either shows the page or redirects, never both and
      never neither; while loading it does neither. Showing the page needs a signed-in
      user with an allowed role. */
  lemma RenderExcludesRedirect(loading: bool, user: Option<User>, allowedRoles: seq<string>)
    ensures loading ==> !RendersChildren(loading, user, allowedRoles) && Redirect(loading, user, allowedRoles).None?
    ensures !loading ==> (RendersChildren(loading, user, allowedRoles) <==> Redirect(loading, user, allowedRoles).None?)
    ensures RendersChildren(loading, user, allowedRoles) ==>
              IsAuthenticated(user) && user.value.role in allowedRoles
  {
  }

  /** The storage listener calls `checkAuth` for the key "logout" only (`event.key` is
      null when storage is cleared). */
  predicate StorageEventChecksAuth(key: Option<string>): (checks: bool)
    ensures key.None? ==> !checks
    ensures checks ==> key.value == "logout"
    ensures key == Some("logout") ==> checks
  {
    key == Some("logout")
  }
}
