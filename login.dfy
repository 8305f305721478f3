/** The sign-in form of src/pages/Login.tsx. The submit button is disabled
    while `isLoading`, and a form whose default button is disabled is not
    submitted. */
module Login {
  import opened Wrappers
  import opened Types
  import opened Text
  import AuthContext
  import RouteGate

  const InvalidCredentials := "Invalid credentials. Please try again."

  /** The body of `POST /login`. */
  datatype Credentials = Credentials(email: string, password: string)

  /** Where a successful sign-in navigates: onboarding for a user who has
      not completed it, the dashboard otherwise. */
  function PostLoginTarget(u: User): string {
    if !u.onboardingCompleted then RouteGate.OnboardingPath else RouteGate.DashboardPath
  }

  /** The target is onboarding exactly when the user has not completed it,
      and the route gate, reading the session `login` has just stored,
      admits the user on that target, so no further redirect follows. */
  lemma PostLoginTargetIsAdmitted(u: User)
    ensures PostLoginTarget(u) == "/onboarding" <==> !u.onboardingCompleted
    ensures PostLoginTarget(u) == "/dashboard" <==> u.onboardingCompleted
    ensures RouteGate.Decide(false, Some(u), PostLoginTarget(u)) == RouteGate.Admit
  {
  }

  class LoginPage {
    const auth: AuthContext.AuthProvider
    var email: string
    var password: string
    /** `''` when no error is shown. */
    var error: string
    /** Set exactly while the `/login` request is outstanding. */
    var isLoading: bool

    constructor (auth: AuthContext.AuthProvider)
      ensures this.auth == auth && email == "" && password == "" && error == "" && !isLoading
    {
      this.auth := auth;
      email := "";
      password := "";
      error := "";
      isLoading := false;
    }

    method SetEmail(value: string)
      modifies this
      ensures email == value && password == old(password)
      ensures error == old(error) && isLoading == old(isLoading)
    {
      email := value;
    }

    method SetPassword(value: string)
      modifies this
      ensures password == value && email == old(email)
      ensures error == old(error) && isLoading == old(isLoading)
    {
      password := value;
    }

    /** Submitting clears the error and sets `isLoading` before the
        request with the entered credentials goes out; while one is
        outstanding the submit is blocked and nothing changes. */
    method Submit() returns (sent: Option<Credentials>)
      modifies this
      ensures old(isLoading) ==> sent == None && error == old(error)
      ensures !old(isLoading) ==> sent == Some(Credentials(old(email), old(password))) && error == ""
      ensures isLoading
      ensures email == old(email) && password == old(password)
    {
      if isLoading {
        return None;
      }
      error := "";
      isLoading := true;
      sent := Some(Credentials(email, password));
    }

    /** The answer to the request: on success `login` stores the session
        first and the page then navigates by `onboarding_completed`; on
        failure the backend's message, or the fixed fallback when it is
        missing or empty, is shown. `isLoading` ends false either way. */
    method Respond(outcome: Result<AuthResponse, Option<string>>) returns (navigateTo: Option<string>)
      requires isLoading
      modifies this, auth
      ensures !isLoading && email == old(email) && password == old(password)
      ensures outcome.Ok? ==>
        && navigateTo == Some(PostLoginTarget(outcome.value.user))
        && error == old(error)
        && auth.storedToken == Some(outcome.value.token)
        && auth.authHeader == Some(AuthContext.BearerHeader(outcome.value.token))
        && auth.user == Some(outcome.value.user)
      ensures outcome.Err? ==>
        && navigateTo == None
        && error == OrDefault(outcome.error, InvalidCredentials)
        && auth.State() == old(auth.State())
      ensures auth.loading == old(auth.loading)
    {
      match outcome {
        case Ok(data) =>
          auth.Login(data.token, data.user);
          navigateTo := Some(PostLoginTarget(data.user));
        case Err(message) =>
          error := OrDefault(message, InvalidCredentials);
          navigateTo := None;
      }
      isLoading := false;
    }
  }
}
