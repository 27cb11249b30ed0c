/** The route table and its guard (src/App.tsx): what each pathname shows,
    given whether the session is authenticated. Paths are compared as
    given; the router's own normalisation is not part of this model. */
module Routes {
  import opened Types
  import SignInForm

  datatype Page = Landing | SignIn | SignUp | Dashboard | SkillInput | IncomeMap

  /** A page, inside the main layout or not, or a redirect. */
  datatype Rendering = Render(page: Page, inMainLayout: bool) | Redirect(to: string)

  const HomePath: string := "/"
  const SignInPath: string := "/signin"

  /** The routes anyone may open. */
  const PublicRoutes: map<string, Page> :=
    map["/" := Landing, "/signin" := SignIn, "/signup" := SignUp]

  /** The routes nested under the guard and the main layout. */
  const ProtectedRoutes: map<string, Page> :=
    map["/dashboard" := Dashboard, "/skills" := SkillInput, "/income-map" := IncomeMap]

  /** `ProtectedRoute`: the guarded content when authenticated, otherwise a
      redirect to the sign-in page (carrying no location state). */
  function ProtectedRoute(isAuthenticated: bool, page: Page): (r: Rendering)
    ensures r.Render? <==> isAuthenticated
    ensures r.Render? ==> r == Render(page, true)
    ensures r.Redirect? ==> r.to == SignInPath
  {
    if isAuthenticated then Render(page, true) else Redirect(SignInPath)
  }

  /** The route table with its catch-all: a page is shown exactly for a
      public path, or for a protected path when authenticated, and it is the
      page the table lists for that path; the main layout only ever appears
      when authenticated; an unauthenticated visit to a protected path goes
      to "/signin" and every unknown path to "/". */
  function Resolve(path: string, isAuthenticated: bool): (r: Rendering)
    ensures r.Render? <==> path in PublicRoutes || (path in ProtectedRoutes && isAuthenticated)
    ensures r.Render? ==> r.page == if path in PublicRoutes then PublicRoutes[path] else ProtectedRoutes[path]
    ensures r.Render? ==> r.inMainLayout == (path in ProtectedRoutes)
    ensures r.Render? && r.inMainLayout ==> isAuthenticated
    ensures r.Redirect? ==> r.to == if path in ProtectedRoutes then SignInPath else HomePath
  {
    if path in PublicRoutes then Render(PublicRoutes[path], false)
    else if path in ProtectedRoutes then ProtectedRoute(isAuthenticated, ProtectedRoutes[path])
    else Redirect(HomePath)
  }

  /** Public pages render the same whether or not the session is
      authenticated. */
  lemma PublicIgnoresAuth(path: string)
    requires path in PublicRoutes
    ensures Resolve(path, true) == Resolve(path, false) == Render(PublicRoutes[path], false)
  {
  }

  /** The guard looks at nothing but the authentication flag: every
      protected path behaves alike. */
  lemma GuardUniform(p: string, q: string, isAuthenticated: bool)
    requires p in ProtectedRoutes && q in ProtectedRoutes
    ensures Resolve(p, isAuthenticated).Render? == Resolve(q, isAuthenticated).Render?
    ensures !isAuthenticated ==> Resolve(p, isAuthenticated) == Resolve(q, isAuthenticated)
  {
  }

  /** The dashboard's "/opportunities" and "/insights" links have no route
      and fall back to the landing page. */
  lemma DashboardLinksFallBack(isAuthenticated: bool)
    ensures Resolve("/opportunities", isAuthenticated) == Redirect(HomePath)
    ensures Resolve("/insights", isAuthenticated) == Redirect(HomePath)
  {
  }

  /** A redirect always reaches a page in one more step. */
  lemma RedirectSettles(path: string, isAuthenticated: bool)
    ensures var r := Resolve(path, isAuthenticated);
      r.Redirect? ==> Resolve(r.to, isAuthenticated).Render?
  {
  }

  /** Because the guard's redirect carries no location state, the sign-in
      page falls back to "/dashboard": after an unauthenticated visit to any
      protected path and a successful sign-in, the user lands on the
      dashboard rather than on the path first asked for. */
  lemma GuardedVisitLandsOnDashboard(path: string)
    requires path in ProtectedRoutes
    ensures Resolve(path, false) == Redirect(SignInPath)
    ensures Resolve(SignInPath, false) == Render(SignIn, false)
    ensures SignInForm.RedirectTarget(None) == SignInForm.DefaultTarget
    ensures Resolve(SignInForm.RedirectTarget(None), true) == Render(Dashboard, true)
  {
  }
}
