/**
 * The authorization gate wrapped around every page of the main layout: while
 * the session is loading it shows the loader, without a session it redirects to
 * the login page, with a role requirement the user does not meet it redirects
 * home, and otherwise it renders the page. Its effect asks the backend for the
 * stored user whenever it finds no session and nothing loading.
 */
module ProtectedRoute {
  import opened Wrappers
  import opened Types

  const LoginPath := "/auth/login"
  const HomePath := "/"

  /** What the gate renders. `RedirectToLogin` carries the location to return to. */
  datatype GateView = ShowLoader | RedirectToLogin(from: string) | RedirectHome | RenderChildren

  /** The effect's condition for dispatching `getCurrentUser`. */
  predicate ShouldRehydrate(isAuthenticated: bool, loading: bool) {
    !isAuthenticated && !loading
  }

  /** The gate's if-return chain. */
  function Decide(loading: bool, isAuthenticated: bool, user: Option<AuthUser>, requiredRole: Option<Role>,
                  location: string): GateView
  {
    if loading then ShowLoader
    else if !isAuthenticated then RedirectToLogin(location)
    else if requiredRole.Some? && user.Some? && user.value.role != requiredRole.value then RedirectHome
    else RenderChildren
  }

  /**
   * The decision in full: loading wins over everything; otherwise no session
   * means the login page with the original location; a session renders unless
   * a required role is set, a user is loaded and its role differs.
   */
  lemma DecisionTable(loading: bool, isAuthenticated: bool, user: Option<AuthUser>, requiredRole: Option<Role>,
                      location: string)
    ensures var v := Decide(loading, isAuthenticated, user, requiredRole, location);
            (v == ShowLoader <==> loading) &&
            (v.RedirectToLogin? <==> !loading && !isAuthenticated) &&
            (v.RedirectToLogin? ==> v.from == location) &&
            (v == RedirectHome <==>
               !loading && isAuthenticated && requiredRole.Some? && user.Some? && user.value.role != requiredRole.value) &&
            (v == RenderChildren <==>
               !loading && isAuthenticated && (requiredRole.None? || user.None? || user.value.role == requiredRole.value))
  {
  }

  /**
   * Roles are matched exactly, with no hierarchy: an administrator is sent home
   * from a page that requires the editor role, and a route mounted without a
   * role renders for any authenticated user.
   */
  lemma RoleMatchIsExact(u: AuthUser, required: Role, location: string)
    ensures Decide(false, true, Some(u), Some(required), location) == RenderChildren <==> u.role == required
    ensures Decide(false, true, Some(u), None, location) == RenderChildren
    ensures Decide(false, true, None, Some(required), location) == RenderChildren
  {
  }

  /** An unauthenticated render that is not loading both redirects to login and triggers rehydration. */
  lemma RedirectComesWithRehydration(isAuthenticated: bool, loading: bool, user: Option<AuthUser>,
                                     requiredRole: Option<Role>, location: string)
    ensures Decide(loading, isAuthenticated, user, requiredRole, location).RedirectToLogin? <==>
            ShouldRehydrate(isAuthenticated, loading)
  {
  }
}
