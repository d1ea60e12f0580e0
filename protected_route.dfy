/** The authorization gate (src/components/auth/ProtectedRoute.tsx): a
    first-match-wins decision over the session's loading flag, its two
    predicates, and the route's two optional props. The route table of
    src/App.tsx is recorded as constants. */
module ProtectedRoute {
  import opened Wrappers
  import opened Types

  /** The props of `<ProtectedRoute>`; an absent prop takes its default. */
  datatype RouteProps = RouteProps(redirectPath: Option<string>, requireAdmin: Option<bool>)

  const DefaultProps := RouteProps(None, None)
  const DefaultRedirect := "/login"
  const FallbackRoute := DashboardRoute

  /** What the gate renders: the spinner, a redirect, or the protected child route. */
  datatype View = Spinner | Navigate(to: string) | Outlet

  /** The gate's first-match-wins chain. The protected route is only ever
      rendered for a settled, authenticated session that passes the admin
      requirement, and a redirect only ever goes to `redirectPath` or to the
      "/dashboard" fallback. */
  function Decide(loading: bool, isAuthenticated: bool, isAdmin: bool, props: RouteProps): (v: View)
    ensures v.Outlet? ==> !loading && isAuthenticated && (props.requireAdmin.GetOr(false) ==> isAdmin)
    ensures v.Navigate? ==> !loading && (v.to == props.redirectPath.GetOr(DefaultRedirect) || v.to == FallbackRoute)
    ensures v.Navigate? && v.to == FallbackRoute && v.to != props.redirectPath.GetOr(DefaultRedirect) ==>
              isAuthenticated && props.requireAdmin.GetOr(false) && !isAdmin
  {
    var redirectPath := props.redirectPath.GetOr(DefaultRedirect);
    var requireAdmin := props.requireAdmin.GetOr(false);
    if loading then Spinner
    else if !isAuthenticated then Navigate(redirectPath)
    else if requireAdmin && !isAdmin then Navigate(FallbackRoute)
    else Outlet
  }

  /** While the session is loading, the spinner is shown whatever the other inputs. */
  lemma {:induction false} LoadingShowsSpinner(isAuthenticated: bool, isAdmin: bool, props: RouteProps)
    ensures Decide(true, isAuthenticated, isAdmin, props) == Spinner
  {
  }

  /** Unauthenticated and not loading: redirect to `redirectPath` (default "/login");
      the admin flag is not consulted. */
  lemma {:induction false} AnonymousIsRedirected(isAdmin: bool, isAdmin': bool, props: RouteProps)
    ensures Decide(false, false, isAdmin, props) == Navigate(props.redirectPath.GetOr(DefaultRedirect))
    ensures Decide(false, false, isAdmin, props) == Decide(false, false, isAdmin', props)
    ensures Decide(false, false, isAdmin, DefaultProps) == Navigate("/login")
  {
  }

  /** The full decision table: each of the four outcomes, and exactly when it occurs. */
  lemma {:induction false} DecisionTable(loading: bool, isAuthenticated: bool, isAdmin: bool, props: RouteProps)
    ensures Decide(loading, isAuthenticated, isAdmin, props).Spinner? <==> loading
    ensures Decide(loading, isAuthenticated, isAdmin, props).Outlet? <==>
              !loading && isAuthenticated && (!props.requireAdmin.GetOr(false) || isAdmin)
    ensures !loading && isAuthenticated && props.requireAdmin.GetOr(false) && !isAdmin ==>
              Decide(loading, isAuthenticated, isAdmin, props) == Navigate(FallbackRoute)
    ensures !loading && !isAuthenticated ==>
              Decide(loading, isAuthenticated, isAdmin, props) == Navigate(props.redirectPath.GetOr(DefaultRedirect))
  {
  }

  /** With `requireAdmin` left at its default, the "/dashboard" fallback is never
      produced (unless it is the caller's own `redirectPath`). */
  lemma {:induction false} NoFallbackWithoutRequireAdmin(loading: bool, isAuthenticated: bool, isAdmin: bool, redirectPath: Option<string>)
    ensures Decide(loading, isAuthenticated, isAdmin, RouteProps(redirectPath, None)) == Navigate(FallbackRoute) ==>
              redirectPath.GetOr(DefaultRedirect) == FallbackRoute
    ensures Decide(loading, isAuthenticated, isAdmin, DefaultProps) != Navigate(FallbackRoute)
  {
  }

  // Routes that src/App.tsx places behind the gate.
  const ProtectedRoutes: set<string> := {DashboardRoute, "/profile", MyPropertiesRoute, "/properties/create", "/properties/edit/:id"}
  const AdminRoutes: set<string> := {"/admin"}
  const AdminRouteProps := RouteProps(None, Some(true))

  /** The props App.tsx gives the gate in front of `path`, if any. */
  function GateFor(path: string): (p: Option<RouteProps>)
    ensures p.Some? <==> path in ProtectedRoutes || path in AdminRoutes
    ensures path in AdminRoutes ==> p == Some(AdminRouteProps)
    ensures path in ProtectedRoutes ==> p == Some(DefaultProps)
  {
    if path in AdminRoutes then Some(AdminRouteProps)
    else if path in ProtectedRoutes then Some(DefaultProps)
    else None
  }
}
