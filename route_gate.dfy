/** The route gate of src/components/ProtectedRoute.tsx: a decision from
    the session (`loading`, `user`) and the requested pathname. */
module RouteGate {
  import opened Wrappers
  import opened Types

  const LoginPath := "/login"
  const OnboardingPath := "/onboarding"
  const DashboardPath := "/dashboard"

  /** What the gate renders: the spinner, one of three redirects (the one
      to the login screen remembers the requested pathname), or the
      wrapped children. */
  datatype Decision = Wait | ToLogin(from: string) | ToOnboarding | ToDashboard | Admit

  /** The early-return chain of `ProtectedRoute`. */
  function Decide(loading: bool, user: Option<User>, pathname: string): Decision {
    if loading then Wait
    else if user.None? then ToLogin(pathname)
    else if !user.value.onboardingCompleted && pathname != OnboardingPath then ToOnboarding
    else if user.value.onboardingCompleted && pathname == OnboardingPath then ToDashboard
    else Admit
  }

  /** The path a redirecting decision navigates to. */
  function Target(d: Decision): Option<string> {
    match d
    case ToLogin(_) => Some(LoginPath)
    case ToOnboarding => Some(OnboardingPath)
    case ToDashboard => Some(DashboardPath)
    case _ => None
  }

  /** While the session is loading the gate waits and never redirects. */
  lemma WaitsWhileLoading(user: Option<User>, pathname: string)
    ensures Decide(true, user, pathname) == Wait
    ensures Target(Decide(true, user, pathname)) == None
  {
  }

  /** Signed out (and loaded): redirect to the login screen, carrying the
      requested location. */
  lemma SignedOutGoesToLogin(pathname: string)
    ensures Decide(false, None, pathname) == ToLogin(pathname)
  {
  }

  /** A user who has not finished onboarding is sent to onboarding from
      every other path. */
  lemma UnfinishedGoesToOnboarding(u: User, pathname: string)
    requires !u.onboardingCompleted && pathname != OnboardingPath
    ensures Decide(false, Some(u), pathname) == ToOnboarding
  {
  }

  /** A user who has finished onboarding is sent from it to the dashboard. */
  lemma FinishedLeavesOnboarding(u: User)
    requires u.onboardingCompleted
    ensures Decide(false, Some(u), OnboardingPath) == ToDashboard
  {
  }

  /** The five outcomes are exhaustive and mutually exclusive: each one
      holds exactly under its own condition, and the conditions partition
      all inputs. */
  lemma DecisionCases(loading: bool, user: Option<User>, pathname: string)
    ensures Decide(loading, user, pathname) == Wait <==> loading
    ensures Decide(loading, user, pathname).ToLogin? <==> !loading && user.None?
    ensures Decide(loading, user, pathname).ToLogin? ==> Decide(loading, user, pathname).from == pathname
    ensures Decide(loading, user, pathname) == ToOnboarding <==>
      !loading && user.Some? && !user.value.onboardingCompleted && pathname != OnboardingPath
    ensures Decide(loading, user, pathname) == ToDashboard <==>
      !loading && user.Some? && user.value.onboardingCompleted && pathname == OnboardingPath
    ensures Decide(loading, user, pathname) == Admit <==>
      !loading && user.Some? && (user.value.onboardingCompleted <==> pathname != OnboardingPath)
  {
  }

  /** The gate never loops: the target of a redirect to onboarding or to
      the dashboard is admitted for the same user, and the login screen is
      a different path from both of them. */
  lemma RedirectTargetAdmitted(user: Option<User>, pathname: string)
    requires Decide(false, user, pathname) in {ToOnboarding, ToDashboard}
    ensures Target(Decide(false, user, pathname)).Some?
    ensures Decide(false, user, Target(Decide(false, user, pathname)).value) == Admit
  {
  }
}
