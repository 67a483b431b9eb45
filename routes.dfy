/** The route table of `App.jsx` and its three guards. A guard looks at the session
    store's `user`, `profile` and `loading` and either shows a spinner, redirects
    (always replacing the history entry), or shows the page it wraps. */
module Routes {
  import opened Common
  import opened Text
  import opened Session

  /** The pages the table can show. */
  datatype Page =
    | LandingPage | LoginPage | RegisterPage | ProfileSelectionPage | CreateProfilePage
    | FamilyDashboard | NannyDashboard
    | AuthCallbackPage | MobileAuthStartPage | MobileAuthCallbackPage
    | PaymentResultPage(outcome: string)

  /** What a route renders. */
  datatype Element = Spinner | Redirect(to: string, replace: bool) | Show(page: Page)

  /** The dashboard path of a role. */
  function DashboardPath(role: string): (path: string)
    ensures |path| == |"/dashboard/"| + |role|
    ensures path[..|"/dashboard/"|] == "/dashboard/" && path[|"/dashboard/"|..] == role
  {
    "/dashboard/" + role
  }

  /** `PublicRoute`: send a signed-in user with a role to their dashboard, else show the
      page. */
  function PublicRoute(s: AuthState, children: Page): (el: Element)
    ensures s.loading ==> el == Spinner
    ensures !s.loading ==>
      (el.Redirect? <==> s.user.Some? && RoleOf(s.profile).Some?)
    ensures !s.loading && el.Redirect? ==> el == Redirect(DashboardPath(RoleOf(s.profile).value), true)
    ensures !el.Redirect? && !s.loading ==> el == Show(children)
  {
    if s.loading then Spinner
    else if s.user.Some? && RoleOf(s.profile).Some? then Redirect(DashboardPath(RoleOf(s.profile).value), true)
    else Show(children)
  }

  /** `ProtectedRoute`: send a visitor without a user to the login page, else show the
      page. */
  function ProtectedRoute(s: AuthState, children: Page): (el: Element)
    ensures s.loading ==> el == Spinner
    ensures !s.loading && s.user.None? ==> el == Redirect("/login", true)
    ensures !s.loading && s.user.Some? ==> el == Show(children)
  {
    if s.loading then Spinner
    else if s.user.None? then Redirect("/login", true)
    else Show(children)
  }

  /** `RoleDashboard`: checks in order for a user, a role, and the route's role. */
  function RoleDashboard(s: AuthState, role: string): (el: Element)
    ensures s.loading ==> el == Spinner
    ensures !s.loading && s.user.None? ==> el == Redirect("/login", true)
    ensures !s.loading && s.user.Some? && RoleOf(s.profile).None? ==> el == Redirect("/select-profile", true)
    ensures !s.loading && s.user.Some? && RoleOf(s.profile).Some? && RoleOf(s.profile).value != role ==>
      el == Redirect(DashboardPath(RoleOf(s.profile).value), true)
    // a dashboard is shown only for the route matching the profile's role
    ensures el.Show? <==> !s.loading && s.user.Some? && RoleOf(s.profile) == Some(role)
    ensures el.Show? ==> el.page == (if role == "family" then FamilyDashboard else NannyDashboard)
  {
    if s.loading then Spinner
    else if s.user.None? then Redirect("/login", true)
    else if RoleOf(s.profile).None? then Redirect("/select-profile", true)
    else if RoleOf(s.profile).value != role then Redirect(DashboardPath(RoleOf(s.profile).value), true)
    else Show(if role == "family" then FamilyDashboard else NannyDashboard)
  }

  /** The three guards all show the spinner while the store is loading. */
  lemma {:induction false} GuardsWaitForLoading(s: AuthState, children: Page, role: string)
    requires s.loading
    ensures PublicRoute(s, children) == ProtectedRoute(s, children) == RoleDashboard(s, role) == Spinner
  {
  }

  /** One route entry: what wraps the page. */
  datatype Entry =
    | Open(page: Page)
    | Public(page: Page)
    | Protected(page: Page)
    | Dashboard(role: string)
    | CatchAll

  /** The paths the table lists, in the table's order. */
  const KnownPaths: seq<string> := [
    "/", "/login", "/register", "/select-profile", "/create-profile",
    "/dashboard/family", "/dashboard/nanny", "/auth/callback",
    "/auth/mobile-start", "/auth/mobile-callback",
    "/payment/success", "/payment/failure", "/payment/pending"]

  /** The route table, compared as exact strings. */
  function RouteFor(path: string): (e: Entry)
    ensures e.CatchAll? <==> path !in KnownPaths
  {
    if path == "/" then Open(LandingPage)
    else if path == "/login" then Public(LoginPage)
    else if path == "/register" then Public(RegisterPage)
    else if path == "/select-profile" then Protected(ProfileSelectionPage)
    else if path == "/create-profile" then Protected(CreateProfilePage)
    else if path == "/dashboard/family" then Dashboard("family")
    else if path == "/dashboard/nanny" then Dashboard("nanny")
    else if path == "/auth/callback" then Open(AuthCallbackPage)
    else if path == "/auth/mobile-start" then Open(MobileAuthStartPage)
    else if path == "/auth/mobile-callback" then Open(MobileAuthCallbackPage)
    else if path == "/payment/success" then Open(PaymentResultPage("success"))
    else if path == "/payment/failure" then Open(PaymentResultPage("failure"))
    else if path == "/payment/pending" then Open(PaymentResultPage("pending"))
    else CatchAll
  }

  /** What the router renders at `path`. */
  function Render(path: string, s: AuthState): (el: Element)
    // every redirect replaces the history entry
    ensures el.Redirect? ==> el.replace
    // the spinner shows only while the store is loading, and never on an open route
    ensures el == Spinner ==> s.loading && !RouteFor(path).Open?
    // a dashboard shows only to a signed-in user whose profile has a role
    ensures el.Show? && (el.page == FamilyDashboard || el.page == NannyDashboard) ==>
      !s.loading && s.user.Some? && RoleOf(s.profile).Some?
    // the profile pages need a user
    ensures el.Show? && (el.page == ProfileSelectionPage || el.page == CreateProfilePage) ==>
      s.user.Some?
  {
    match RouteFor(path)
    case Open(page) => Show(page)
    case Public(page) => PublicRoute(s, page)
    case Protected(page) => ProtectedRoute(s, page)
    case Dashboard(role) => RoleDashboard(s, role)
    case CatchAll => Redirect("/", true)
  }

  /** Any path not in the table redirects to the landing page, whatever the session. */
  lemma UnknownPathGoesHome(path: string, s: AuthState)
    requires path !in KnownPaths
    ensures Render(path, s) == Redirect("/", true)
  {
  }

  /** Different roles have different dashboard paths. */
  lemma DashboardPathInjective(a: string, b: string)
    ensures DashboardPath(a) == DashboardPath(b) <==> a == b
  {
    assert a == DashboardPath(a)[|"/dashboard/"|..];
    assert b == DashboardPath(b)[|"/dashboard/"|..];
  }

  /** No dashboard path is the login or the profile-selection path. */
  lemma DashboardPathIsNotAGuardTarget(role: string)
    ensures DashboardPath(role) != "/login" && DashboardPath(role) != "/select-profile"
  {
    assert DashboardPath(role)[1] == 'd';
  }

  /** A role mismatch redirects to a dashboard whose guard then shows it: following the
      redirect once reaches a rendering state. */
  lemma {:induction false} MismatchRedirectSettles(s: AuthState, role: string, target: string)
    requires RoleDashboard(s, role) == Redirect(DashboardPath(target), true)
    ensures RoleOf(s.profile) == Some(target)
    ensures RoleDashboard(s, target).Show?
  {
    DashboardPathIsNotAGuardTarget(target);
    if RoleOf(s.profile).Some? && RoleOf(s.profile).value != role {
      DashboardPathInjective(RoleOf(s.profile).value, target);
    }
  }

  /** The table has a dashboard route for exactly the roles "family" and "nanny"; any
      other role's dashboard path is not in the table. */
  lemma DashboardRoute(role: string)
    ensures RouteFor(DashboardPath(role)) == if role == "family" || role == "nanny" then Dashboard(role) else CatchAll
  {
    var path := DashboardPath(role);
    DashboardPathInjective(role, "family");
    DashboardPathInjective(role, "nanny");
    if role == "family" {
      assert path == "/dashboard/family";
    } else if role == "nanny" {
      assert path == "/dashboard/nanny";
    } else {
      assert |path| >= 11 && path[1] == 'd' && path[2] == 'a';
      assert path !in KnownPaths;
    }
  }

  /** Through the table, the redirect target is a dashboard route only for the roles
      "family" and "nanny"; any other role's dashboard path falls through to the
      landing page. */
  lemma {:induction false} MismatchRedirectThroughTable(s: AuthState, role: string, target: string)
    requires RoleDashboard(s, role) == Redirect(DashboardPath(target), true)
    ensures target == "family" || target == "nanny" ==> Render(DashboardPath(target), s).Show?
    ensures target != "family" && target != "nanny" ==> Render(DashboardPath(target), s) == Redirect("/", true)
  {
    MismatchRedirectSettles(s, role, target);
    DashboardRoute(target);
  }
}
