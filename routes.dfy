/** The two route guards: what a protected page shows for a given session state. */
module Routes {
  import opened Wrappers
  import opened AuthSlice

  /** What a guard renders: the spinner, a navigation (with the location to come
      back to, and whether it replaces the history entry), or the guarded page. */
  datatype Outcome = Spinner | Redirect(to: string, from: Option<string>, replace: bool) | Children

  /** ProtectedRoute: the spinner while the session is loading; otherwise a
      redirect to "/" carrying the current location when there is no token,
      else the page. */
  function ProtectedRoute(auth: AuthView, location: string): (r: Outcome)
    ensures auth.loading ==> r == Spinner
    ensures !auth.loading && !Truthy(auth.token) ==> r == Redirect("/", Some(location), true)
    ensures !auth.loading && Truthy(auth.token) ==> r == Children
  {
    if auth.loading then Spinner
    else if !Truthy(auth.token) then Redirect("/", Some(location), true)
    else Children
  }

  /** RoleRoute: the page exactly when there is a user whose role is the required
      one, otherwise a redirect to "/". */
  function RoleRoute(auth: AuthView, role: string): (r: Outcome)
    ensures r == Children <==> auth.user.Some? && auth.user.value.role == role
    ensures r != Children ==> r == Redirect("/", None, true)
  {
    if auth.user.Some? && auth.user.value.role == role then Children else Redirect("/", None, true)
  }

  /** ProtectedRoute decides on `loading` and `token` alone. */
  lemma ProtectedRouteIgnoresUser(a: AuthView, b: AuthView, location: string)
    requires a.loading == b.loading && a.token == b.token
    ensures ProtectedRoute(a, location) == ProtectedRoute(b, location)
  {
  }

  /** RoleRoute decides on the user alone; the token is never consulted. */
  lemma RoleRouteIgnoresToken(a: AuthView, b: AuthView, role: string)
    requires a.user == b.user
    ensures RoleRoute(a, role) == RoleRoute(b, role)
  {
  }

  /** A role page: RoleRoute nested inside ProtectedRoute. */
  function GuardedPage(auth: AuthView, role: string, location: string): Outcome {
    var outer := ProtectedRoute(auth, location);
    if outer == Children then RoleRoute(auth, role) else outer
  }

  /** A role page renders exactly when the session is loaded, has a token and has
      a user of that role; a token without a user is sent back to "/". */
  lemma GuardedPageRenders(auth: AuthView, role: string, location: string)
    ensures GuardedPage(auth, role, location) == Children
      <==> !auth.loading && Truthy(auth.token) && auth.user.Some? && auth.user.value.role == role
    ensures !auth.loading && Truthy(auth.token) && auth.user.None? ==>
      GuardedPage(auth, role, location) == Redirect("/", None, true)
  {
  }
}
