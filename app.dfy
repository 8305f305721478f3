/** The route table of src/App.tsx: which paths are public, which pass
    through the route gate, and where `/` and unmatched paths go. A single
    session (one `AuthProvider` around every route) is the input of every
    gate, so `Resolve` takes one `loading`/`user` pair for all paths. */
module App {
  import opened Wrappers
  import opened Types
  import RouteGate

  datatype Page =
    | LoginPage | RegisterPage | OnboardingPage
    | DashboardPage | CampaignsPage | ContactsPage | TemplatesPage | SettingsPage

  /** A child route of the gated `MainLayout`: a view, or the redirect to
      the dashboard that `/` and `*` hold. */
  datatype LayoutChild = View(page: Page) | RedirectHome

  /** `Public` routes sit in `AuthLayout` without a gate; `Standalone` is
      the onboarding route with its own gate; `InLayout` routes are the
      children of the gated `MainLayout`. */
  datatype Route = Public(page: Page) | Standalone(page: Page) | InLayout(child: LayoutChild)

  /** Route matching, exact on the pathname. `/forgot-password` has no
      route of its own (it is commented out) and falls to `*`. */
  function Match(pathname: string): Route {
    if pathname == "/login" then Public(LoginPage)
    else if pathname == "/register" then Public(RegisterPage)
    else if pathname == "/onboarding" then Standalone(OnboardingPage)
    else if pathname == "/dashboard" then InLayout(View(DashboardPage))
    else if pathname == "/campaigns" then InLayout(View(CampaignsPage))
    else if pathname == "/contacts" then InLayout(View(ContactsPage))
    else if pathname == "/templates" then InLayout(View(TemplatesPage))
    else if pathname == "/settings" then InLayout(View(SettingsPage))
    else InLayout(RedirectHome)
  }

  predicate IsGated(pathname: string) {
    !Match(pathname).Public?
  }

  /** What a navigation to `pathname` shows: the gate's spinner, a page
      (inside `MainLayout` or not), or a redirect with the location the
      login redirect remembers. */
  datatype Screen = Spinner | Rendered(page: Page, inLayout: bool) | Redirect(to: string, from: Option<string>)

  /** The screen for one gate decision around already-chosen content. */
  function Gate(d: RouteGate.Decision, content: Screen): Screen {
    match d
    case Wait => Spinner
    case ToLogin(from) => Redirect(RouteGate.LoginPath, Some(from))
    case ToOnboarding => Redirect(RouteGate.OnboardingPath, None)
    case ToDashboard => Redirect(RouteGate.DashboardPath, None)
    case Admit => content
  }

  /** One render of the route tree for the shared session. */
  function Resolve(loading: bool, user: Option<User>, pathname: string): Screen {
    match Match(pathname)
    case Public(p) => Rendered(p, false)
    case Standalone(p) => Gate(RouteGate.Decide(loading, user, pathname), Rendered(p, false))
    case InLayout(child) =>
      Gate(RouteGate.Decide(loading, user, pathname),
           if child.View? then Rendered(child.page, true) else Redirect(RouteGate.DashboardPath, None))
  }

  /** Following up to `hops` redirects from `pathname`. */
  function Settle(loading: bool, user: Option<User>, pathname: string, hops: nat): Screen
    decreases hops
  {
    var s := Resolve(loading, user, pathname);
    if s.Redirect? && hops > 0 then Settle(loading, user, s.to, hops - 1) else s
  }

  /** `/login` and `/register` are never behind the gate: they render for
      every session, including a loading one. */
  lemma AuthPagesArePublic(loading: bool, user: Option<User>)
    ensures !IsGated("/login") && !IsGated("/register")
    ensures Resolve(loading, user, "/login") == Rendered(LoginPage, false)
    ensures Resolve(loading, user, "/register") == Rendered(RegisterPage, false)
  {
  }

  /** `/onboarding` is gated on its own, outside the main layout. */
  lemma OnboardingIsStandalone()
    ensures Match("/onboarding") == Standalone(OnboardingPage)
  {
  }

  /** The five dashboard paths are children of the gated layout, each
      showing its own view. */
  lemma DashboardPathsAreGated(pathname: string)
    requires pathname in ["/dashboard", "/campaigns", "/contacts", "/templates", "/settings"]
    ensures Match(pathname).InLayout? && Match(pathname).child.View?
    ensures IsGated(pathname)
    ensures Match("/dashboard") == InLayout(View(DashboardPage))
    ensures Match("/campaigns") == InLayout(View(CampaignsPage))
    ensures Match("/contacts") == InLayout(View(ContactsPage))
    ensures Match("/templates") == InLayout(View(TemplatesPage))
    ensures Match("/settings") == InLayout(View(SettingsPage))
  {
  }

  /** Every path that is not one of the eight named routes, `/` and
      `/forgot-password` among them, falls into the gated layout's
      redirect to the dashboard, so it passes the gate first. */
  lemma UnknownPathsRedirectBehindGate(loading: bool, user: Option<User>, pathname: string)
    requires pathname !in ["/login", "/register", "/onboarding", "/dashboard",
                           "/campaigns", "/contacts", "/templates", "/settings"]
    ensures Match(pathname) == InLayout(RedirectHome)
    ensures RouteGate.Decide(loading, user, pathname) == RouteGate.Admit ==>
      Resolve(loading, user, pathname) == Redirect(RouteGate.DashboardPath, None)
    ensures !loading && user.None? ==>
      Resolve(loading, user, pathname) == Redirect(RouteGate.LoginPath, Some(pathname))
  {
  }

  /** A signed-out visitor on the commented-out `/forgot-password` route is
      sent to the login screen. */
  lemma ForgotPasswordNeedsLogin()
    ensures Settle(false, None, "/forgot-password", 1) == Rendered(LoginPage, false)
  {
    UnknownPathsRedirectBehindGate(false, None, "/forgot-password");
  }

  /** Once the session has loaded, every path shows a page after at most
      one redirect: no redirect chain loops or grows. */
  lemma SettlesAfterOneRedirect(user: Option<User>, pathname: string)
    ensures Settle(false, user, pathname, 1).Rendered?
  {
    var s := Resolve(false, user, pathname);
    if s.Redirect? {
      assert s.to in {RouteGate.LoginPath, RouteGate.OnboardingPath, RouteGate.DashboardPath};
      RouteGate.DecisionCases(false, user, s.to);
    }
  }

  /** While the session loads, every gated path shows the spinner. */
  lemma GatedPathsWaitWhileLoading(user: Option<User>, pathname: string)
    requires IsGated(pathname)
    ensures Resolve(true, user, pathname) == Spinner
  {
  }
}
