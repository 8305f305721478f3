/** End-to-end runs through the session store, the forms and the route
    table: each method builds fresh components, drives them through one
    user journey and reports what the router then shows. */
module Scenarios {
  import opened Wrappers
  import opened Types
  import AuthContext
  import Login
  import Register
  import Onboarding
  import App
  import RouteGate

  /** A visitor whose stored session does not survive the mount check
      signs in; the page they are sent to renders at once, the dashboard
      inside the main layout for a user who has completed onboarding and
      the wizard otherwise. */
  method SignInLandsOnAdmittedPage(header: Option<string>, stale: Option<string>, email: string, password: string,
                                   answer: AuthResponse)
    returns (target: string, screen: App.Screen)
    ensures target == if answer.user.onboardingCompleted then "/dashboard" else "/onboarding"
    ensures screen == if answer.user.onboardingCompleted
      then App.Rendered(App.DashboardPage, true)
      else App.Rendered(App.OnboardingPage, false)
  {
    var auth := new AuthContext.AuthProvider(stale, header);
    auth.CheckAuth(Err("Unauthenticated"));
    var page := new Login.LoginPage(auth);
    page.SetEmail(email);
    page.SetPassword(password);
    var sent := page.Submit();
    var next := page.Respond(Ok(answer));
    target := next.value;
    Login.PostLoginTargetIsAdmitted(answer.user);
    screen := App.Resolve(auth.loading, auth.user, target);
  }

  /** A new account (which has not been onboarded) lands on the
      onboarding wizard right after registering. */
  method RegisterLandsOnOnboarding(form: Register.RegisterForm, answer: AuthResponse)
    returns (screen: App.Screen)
    requires Register.Validate(form) == None
    requires !answer.user.onboardingCompleted
    ensures screen == App.Rendered(App.OnboardingPage, false)
  {
    var auth := new AuthContext.AuthProvider(None, None);
    auth.CheckAuth(Err("no token"));
    var page := new Register.RegisterPage(auth);
    page.HandleChange(Register.FullName, form.fullName, false);
    page.HandleChange(Register.BusinessName, form.businessName, false);
    page.HandleChange(Register.Email, form.email, false);
    page.HandleChange(Register.Password, form.password, false);
    page.HandleChange(Register.ConfirmPassword, form.confirmPassword, false);
    page.HandleChange(Register.AcceptTerms, "on", form.acceptTerms);
    assert page.formData == form;
    var sent := page.Submit();
    var next := page.Respond(Ok(answer));
    screen := App.Resolve(auth.loading, auth.user, next.value);
  }

  /** A user whose stored token is accepted but who has not been
      onboarded is first held on the wizard. After walking it to the end,
      the session's user has `onboardingCompleted` set with every other
      field kept, the dashboard renders, and the wizard's own path
      redirects to the dashboard. */
  method OnboardingUnlocksDashboard(token: string, u: User, business: Onboarding.BusinessData)
    returns (stored: Option<User>, dashboard: App.Screen, wizard: App.Screen)
    requires token != "" && !u.onboardingCompleted
    ensures stored == Some(u.(onboardingCompleted := true))
    ensures dashboard == App.Rendered(App.DashboardPage, true)
    ensures wizard == App.Redirect(RouteGate.DashboardPath, None)
  {
    var auth := new AuthContext.AuthProvider(Some(token), None);
    auth.CheckAuth(Ok(u));
    assert App.Resolve(auth.loading, auth.user, "/dashboard") == App.Redirect(RouteGate.OnboardingPath, None);
    var w := new Onboarding.OnboardingWizard(auth);
    w.StepOneTimerFires();
    w.SelectCategory(business.category);
    w.SelectCountry(business.country);
    var posted := w.SubmitBusiness();
    w.BusinessResponse(true);
    w.ConnectWhatsApp();
    w.ConnectTimerFires();
    w.ContinueToFinish();
    var clicked := w.FinishOnboarding();
    var next := w.FinishResponse(true);
    stored := auth.user;
    dashboard := App.Resolve(auth.loading, auth.user, next.value);
    wizard := App.Resolve(auth.loading, auth.user, RouteGate.OnboardingPath);
  }

  /** After `logout`, whatever the backend did, every gated path sends
      the visitor to the login screen, remembering where they were going. */
  method LogoutLocksGatedPaths(token: string, u: User, backendReached: bool, pathname: string)
    returns (screen: App.Screen)
    requires App.IsGated(pathname)
    ensures screen == App.Redirect(RouteGate.LoginPath, Some(pathname))
  {
    var auth := new AuthContext.AuthProvider(Some(token), None);
    auth.CheckAuth(Ok(u));
    auth.Logout(backendReached);
    screen := App.Resolve(auth.loading, auth.user, pathname);
  }

  /** With no stored token the mount check ends signed out and the
      dashboard sends the visitor to the login screen. */
  method NoTokenLocksDashboard(header: Option<string>) returns (screen: App.Screen)
    ensures screen == App.Redirect(RouteGate.LoginPath, Some("/dashboard"))
  {
    var auth := new AuthContext.AuthProvider(None, header);
    auth.CheckAuth(Err("not requested"));
    screen := App.Resolve(auth.loading, auth.user, "/dashboard");
  }

  /** Right after `login` with a user who has not been onboarded, the
      dashboard redirects to onboarding and onboarding renders. */
  method LoginBeforeOnboarding(token: string, u: User) returns (dashboard: App.Screen, wizard: App.Screen)
    requires !u.onboardingCompleted
    ensures dashboard == App.Redirect(RouteGate.OnboardingPath, None)
    ensures wizard == App.Rendered(App.OnboardingPage, false)
  {
    var auth := new AuthContext.AuthProvider(None, None);
    auth.CheckAuth(Err("not requested"));
    auth.Login(token, u);
    dashboard := App.Resolve(auth.loading, auth.user, "/dashboard");
    wizard := App.Resolve(auth.loading, auth.user, "/onboarding");
  }

  /** On step 3, 'Generate QR Code' shows `Connecting` at once; 'Continue'
      before the connect timer has fired leaves the wizard on step 3, and
      after it fired the status is `Connected` and 'Continue' reaches
      step 4. */
  method ConnectBeforeContinue(auth: AuthContext.AuthProvider, business: Onboarding.BusinessData)
    returns (statusAfterClick: Onboarding.ConnectionStatus, stepBeforeTimer: int,
             statusAfterTimer: Onboarding.ConnectionStatus, stepAfterTimer: int)
    ensures statusAfterClick == Onboarding.Connecting && stepBeforeTimer == 3
    ensures statusAfterTimer == Onboarding.Connected && stepAfterTimer == 4
  {
    var w := new Onboarding.OnboardingWizard(auth);
    w.StepOneTimerFires();
    w.SelectCategory(business.category);
    var posted := w.SubmitBusiness();
    w.BusinessResponse(true);
    w.ConnectWhatsApp();
    statusAfterClick := w.connectionStatus;
    w.ContinueToFinish();
    stepBeforeTimer := w.currentStep;
    w.ConnectTimerFires();
    statusAfterTimer := w.connectionStatus;
    w.ContinueToFinish();
    stepAfterTimer := w.currentStep;
  }
}
