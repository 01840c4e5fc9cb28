/** The route guard (frontend/src/components/ProtectedRoute.jsx): an ordered
    decision over the store's `loading` flag, the route's `requireAuth` and
    the store's `user`, whose truthiness is what counts. `location` is the
    path being visited. */
module ProtectedRoute {
  import opened Js

  datatype Outcome =
    | Spinner
    | RedirectLogin(from: string)
    | RedirectDashboard
    | Children

  /** The guard; `requireAuth` is true unless the route says otherwise. */
  function Guard(loading: bool, user: Value, location: string, requireAuth: bool := true): (o: Outcome)
    ensures o == Spinner <==> loading
    ensures o.RedirectLogin? <==> !loading && requireAuth && !Truthy(user)
    ensures o.RedirectLogin? ==> o.from == location
    ensures o == RedirectDashboard <==> !loading && !requireAuth && Truthy(user)
    ensures o == Children <==> !loading && (requireAuth <==> Truthy(user))
  {
    if loading then Spinner
    else if requireAuth && !Truthy(user) then RedirectLogin(location)
    else if !requireAuth && Truthy(user) then RedirectDashboard
    else Children
  }

  /** The guarded content shows only to the audience the route is for:
      signed-in users on an authenticated route, signed-out visitors on a
      public one; a guard left at its default protects the route. */
  lemma ChildrenOnlyForAudience(loading: bool, user: Value, location: string, requireAuth: bool)
    ensures Guard(loading, user, location, requireAuth) == Children ==>
              !loading && (Truthy(user) <==> requireAuth)
    ensures Guard(loading, user, location) == Guard(loading, user, location, true)
    ensures !Truthy(user) && !loading ==> Guard(loading, user, location) == RedirectLogin(location)
  {
  }

  /** Each guard's redirect leads to a route whose guard, for the same user,
      shows its content: the two redirects never bounce back and forth. */
  lemma RedirectsSettle(user: Value, location: string, requireAuth: bool)
    ensures Guard(false, user, location, requireAuth).RedirectLogin? ==>
              Guard(false, user, "/login", false) == Children
    ensures Guard(false, user, location, requireAuth) == RedirectDashboard ==>
              Guard(false, user, "/dashboard", true) == Children
  {
  }
}
