/** The four-step wizard of src/pages/Onboarding.tsx. Each UI event is a
    method; an event on a control that the current step does not render,
    or that is disabled, changes nothing. The two requests are split into
    the click that sends them and the response that resumes the awaiting
    handler, and the two `setTimeout` callbacks are explicit tick events. */
module Onboarding {
  import opened Wrappers
  import opened Types
  import AuthContext

  datatype ConnectionStatus = Idle | Connecting | Connected

  datatype BusinessData = BusinessData(category: string, country: string, timezone: string)

  const InitialBusinessData := BusinessData("", "US", "UTC")

  /** The handler awaiting a response: `handleBusinessSubmit` with the
      payload it posted, or `finishOnboarding` with the `user` its closure
      captured when the button was clicked. */
  datatype Awaiting = Nothing | BusinessSave(payload: BusinessData) | Finish(captured: Option<User>)

  class OnboardingWizard {
    const auth: AuthContext.AuthProvider
    var currentStep: int
    var isLoading: bool
    var businessData: BusinessData
    var connectionStatus: ConnectionStatus
    /** The 2-second timer `connectWhatsApp` scheduled and has not yet run. */
    var connectTimerArmed: bool
    var awaiting: Awaiting

    /** The wizard's invariant: the step is 1..4; `isLoading` is set
        exactly while a request is awaited, which happens only on the step
        that owns the button; the connection sub-machine starts on step 3
        and reaches `Connected` before step 4. */
    ghost predicate Valid()
      reads this
    {
      && 1 <= currentStep <= 4
      && (isLoading <==> !awaiting.Nothing?)
      && (awaiting.BusinessSave? ==> currentStep == 2)
      && (awaiting.Finish? ==> currentStep == 4)
      && (connectTimerArmed <==> connectionStatus == Connecting)
      && (connectionStatus != Idle ==> currentStep >= 3)
      && (currentStep == 4 ==> connectionStatus == Connected)
    }

    constructor (auth: AuthContext.AuthProvider)
      ensures Valid() && this.auth == auth
      ensures currentStep == 1 && !isLoading && connectionStatus == Idle
      ensures businessData == InitialBusinessData && awaiting == Nothing
    {
      this.auth := auth;
      currentStep := 1;
      isLoading := false;
      businessData := InitialBusinessData;
      connectionStatus := Idle;
      connectTimerArmed := false;
      awaiting := Nothing;
    }

    /** The step-1 effect's timer: it exists only while the step is 1 (the
        effect's cleanup clears it on any change) and moves to step 2. */
    method StepOneTimerFires()
      requires Valid()
      modifies this
      ensures Valid()
      ensures currentStep == if old(currentStep) == 1 then 2 else old(currentStep)
      ensures old(currentStep) <= currentStep
      ensures isLoading == old(isLoading) && awaiting == old(awaiting)
      ensures businessData == old(businessData) && connectionStatus == old(connectionStatus)
      ensures connectTimerArmed == old(connectTimerArmed)
    {
      if currentStep == 1 {
        currentStep := 2;
      }
    }

    /** The category and country selects of step 2. */
    method SelectCategory(category: string)
      requires Valid()
      modifies this
      ensures Valid()
      ensures businessData == if old(currentStep) == 2 then old(businessData).(category := category) else old(businessData)
      ensures currentStep == old(currentStep) && isLoading == old(isLoading) && awaiting == old(awaiting)
      ensures connectionStatus == old(connectionStatus) && connectTimerArmed == old(connectTimerArmed)
    {
      if currentStep == 2 {
        businessData := businessData.(category := category);
      }
    }

    method SelectCountry(country: string)
      requires Valid()
      modifies this
      ensures Valid()
      ensures businessData == if old(currentStep) == 2 then old(businessData).(country := country) else old(businessData)
      ensures currentStep == old(currentStep) && isLoading == old(isLoading) && awaiting == old(awaiting)
      ensures connectionStatus == old(connectionStatus) && connectTimerArmed == old(connectTimerArmed)
    {
      if currentStep == 2 {
        businessData := businessData.(country := country);
      }
    }

    /** Submitting the step-2 form posts the business data to
        `/onboarding/business` and sets `isLoading`; the submit button is
        disabled while `isLoading`. */
    method SubmitBusiness() returns (sent: Option<BusinessData>)
      requires Valid()
      modifies this
      ensures Valid()
      ensures old(currentStep) == 2 && !old(isLoading) ==>
        sent == Some(old(businessData)) && isLoading && awaiting == BusinessSave(old(businessData))
      ensures !(old(currentStep) == 2 && !old(isLoading)) ==>
        sent == None && isLoading == old(isLoading) && awaiting == old(awaiting)
      ensures currentStep == old(currentStep) && businessData == old(businessData)
      ensures connectionStatus == old(connectionStatus) && connectTimerArmed == old(connectTimerArmed)
    {
      if currentStep != 2 || isLoading {
        return None;
      }
      isLoading := true;
      awaiting := BusinessSave(businessData);
      sent := Some(businessData);
    }

    /** The response to the business post: success moves to step 3, a
        failure stays on step 2; either way `isLoading` ends false. */
    method BusinessResponse(ok: bool)
      requires Valid() && awaiting.BusinessSave?
      modifies this
      ensures Valid()
      ensures old(currentStep) == 2 && currentStep == if ok then 3 else 2
      ensures !isLoading && awaiting == Nothing
      ensures businessData == old(businessData)
      ensures connectionStatus == old(connectionStatus) && connectTimerArmed == old(connectTimerArmed)
    {
      if ok {
        currentStep := 3;
      }
      isLoading := false;
      awaiting := Nothing;
    }

    /** 'Generate QR Code', rendered on step 3 while the status is idle:
        the status becomes `Connecting` and the 2-second timer is armed. */
    method ConnectWhatsApp()
      requires Valid()
      modifies this
      ensures Valid()
      ensures old(currentStep) == 3 && old(connectionStatus) == Idle ==>
        connectionStatus == Connecting && connectTimerArmed
      ensures !(old(currentStep) == 3 && old(connectionStatus) == Idle) ==>
        connectionStatus == old(connectionStatus) && connectTimerArmed == old(connectTimerArmed)
      ensures currentStep == old(currentStep) && isLoading == old(isLoading) && awaiting == old(awaiting)
      ensures businessData == old(businessData)
    {
      if currentStep == 3 && connectionStatus == Idle {
        connectionStatus := Connecting;
        connectTimerArmed := true;
      }
    }

    /** The connect timer's callback: `Connecting` becomes `Connected`. */
    method ConnectTimerFires()
      requires Valid()
      modifies this
      ensures Valid()
      ensures connectionStatus == if old(connectTimerArmed) then Connected else old(connectionStatus)
      ensures !connectTimerArmed
      ensures currentStep == old(currentStep) && isLoading == old(isLoading) && awaiting == old(awaiting)
      ensures businessData == old(businessData)
    {
      if connectTimerArmed {
        connectionStatus := Connected;
        connectTimerArmed := false;
      }
    }

    /** Step 3's 'Continue', enabled only once connected: 3 becomes 4;
        otherwise the step stays. */
    method ContinueToFinish()
      requires Valid()
      modifies this
      ensures Valid()
      ensures currentStep == if old(currentStep) == 3 && old(connectionStatus) == Connected then 4 else old(currentStep)
      ensures old(currentStep) <= currentStep
      ensures isLoading == old(isLoading) && awaiting == old(awaiting) && businessData == old(businessData)
      ensures connectionStatus == old(connectionStatus) && connectTimerArmed == old(connectTimerArmed)
    {
      if currentStep == 3 && connectionStatus == Connected {
        currentStep := 4;
      }
    }

    /** Step 4's 'Go to Dashboard', disabled while `isLoading`: posts to
        `/onboarding/finish`, capturing the current user. */
    method FinishOnboarding() returns (sent: bool)
      requires Valid()
      modifies this
      ensures Valid()
      ensures sent == (old(currentStep) == 4 && !old(isLoading))
      ensures sent ==> isLoading && awaiting == Finish(auth.user)
      ensures !sent ==> isLoading == old(isLoading) && awaiting == old(awaiting)
      ensures currentStep == old(currentStep) && businessData == old(businessData)
      ensures connectionStatus == old(connectionStatus) && connectTimerArmed == old(connectTimerArmed)
    {
      sent := currentStep == 4 && !isLoading;
      if sent {
        isLoading := true;
        awaiting := Finish(auth.user);
      }
    }

    /** The response to the finish post. On success the captured user, if
        any, is stored with `onboardingCompleted` set and nothing else
        changed, and the wizard navigates to the dashboard; on failure
        neither the step nor the session changes. */
    method FinishResponse(ok: bool) returns (navigateTo: Option<string>)
      requires Valid() && awaiting.Finish?
      modifies this, auth
      ensures Valid()
      ensures !isLoading && awaiting == Nothing && currentStep == old(currentStep)
      ensures ok ==> navigateTo == Some("/dashboard")
      ensures ok && old(awaiting).captured.Some? ==>
        auth.user == Some(old(awaiting).captured.value.(onboardingCompleted := true))
      ensures !ok || old(awaiting).captured.None? ==> auth.user == old(auth.user)
      ensures !ok ==> navigateTo == None
      ensures auth.loading == old(auth.loading) && auth.storedToken == old(auth.storedToken)
      ensures auth.authHeader == old(auth.authHeader)
      ensures businessData == old(businessData)
      ensures connectionStatus == old(connectionStatus) && connectTimerArmed == old(connectTimerArmed)
    {
      navigateTo := None;
      if ok {
        var captured := awaiting.captured;
        if captured.Some? {
          auth.UpdateUser(captured.value.(onboardingCompleted := true));
        }
        navigateTo := Some("/dashboard");
      }
      isLoading := false;
      awaiting := Nothing;
    }
  }
}
