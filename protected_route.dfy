/** The route guard: a total decision over the loading flag, whether a user
    is signed in, the user's role and the role the route requires. The guard
    renders a loading placeholder, redirects with a toast, or renders the
    protected page. */
module ProtectedRoute {
  import opened Common

  datatype Decision =
    | ShowLoading
    | RedirectToLogin(notice: Toast)
    | RedirectToHome(notice: Toast)
    | Allow

  /** `requiredRole` is truthy: given and not the empty string. */
  predicate RoleRequired(requiredRole: Option<string>)
  {
    requiredRole.Some? && requiredRole.value != ""
  }

  const LoginRequiredNotice := Toast("Authentication required", "You must be logged in to access this page", true)

  function AccessDeniedNotice(requiredRole: string): Toast
  {
    Toast("Access denied", "Only " + requiredRole + " users can access this page", true)
  }

  /** The guard's decision chain. Loading wins over everything; then a missing
      user; then a role mismatch (a missing role never matches a required
      one); otherwise the page renders. */
  function Decide(isLoading: bool, hasUser: bool, userRole: Option<string>, requiredRole: Option<string>): (d: Decision)
    ensures isLoading ==> d == ShowLoading
    ensures d == ShowLoading <==> isLoading
    ensures d.RedirectToLogin? <==> !isLoading && !hasUser
    ensures d.RedirectToLogin? ==> d.notice == LoginRequiredNotice
    ensures d.RedirectToHome? <==> !isLoading && hasUser && RoleRequired(requiredRole) && userRole != requiredRole
    ensures d.RedirectToHome? ==> d.notice == AccessDeniedNotice(requiredRole.value)
    ensures d == Allow <==> !isLoading && hasUser && (!RoleRequired(requiredRole) || userRole == requiredRole)
    ensures !isLoading && hasUser && !RoleRequired(requiredRole) ==> d == Allow
  {
    if isLoading then ShowLoading
    else if !hasUser then RedirectToLogin(LoginRequiredNotice)
    else if RoleRequired(requiredRole) && userRole != requiredRole then RedirectToHome(AccessDeniedNotice(requiredRole.value))
    else Allow
  }

  /** Where a decision navigates to (with `replace`), if anywhere. */
  function Target(d: Decision): (path: Option<string>)
    ensures path.Some? <==> d.RedirectToLogin? || d.RedirectToHome?
    ensures d.RedirectToLogin? ==> path == Some("/login")
    ensures d.RedirectToHome? ==> path == Some("/")
  {
    match d
    case RedirectToLogin(_) => Some("/login")
    case RedirectToHome(_) => Some("/")
    case _ => None
  }

  /** The toasts a decision emits: one for each redirect, none for the
      loading placeholder or the rendered page. */
  function DecisionNotices(d: Decision): (ts: seq<Toast>)
    ensures |ts| == (if d.RedirectToLogin? || d.RedirectToHome? then 1 else 0)
    ensures d.RedirectToLogin? || d.RedirectToHome? ==> ts == [d.notice]
  {
    match d
    case RedirectToLogin(t) => [t]
    case RedirectToHome(t) => [t]
    case _ => []
  }

  /** The guarded routes of the application and the role each requires. */
  const GuardedRoutes: seq<(string, string)> := [
    ("/civilian-database", "police"),
    ("/criminal-database", "police"),
    ("/civilian-profile", "civilian"),
    ("/complaint/:officerId", "civilian")
  ]

  /** Once loading is over, a signed-in user reaches a guarded route exactly
      when the route's role is the user's; a user without a role (no profile
      yet) reaches none of them, and nobody signed out does. */
  lemma GuardedRouteAccess(i: nat, hasUser: bool, userRole: Option<string>)
    requires i < |GuardedRoutes|
    ensures Decide(false, hasUser, userRole, Some(GuardedRoutes[i].1)) == Allow
            <==> hasUser && userRole == Some(GuardedRoutes[i].1)
    ensures userRole.None? ==> Decide(false, hasUser, userRole, Some(GuardedRoutes[i].1)) != Allow
  {
  }
}
