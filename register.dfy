/** The sign-up form of src/pages/Register.tsx: field edits, the ordered
    client-side checks, the request body and the handling of the answer.
    The submit button is disabled while `isLoading`, and a form whose
    default button is disabled is not submitted. */
module Register {
  import opened Wrappers
  import opened Types
  import opened Text
  import AuthContext

  datatype RegisterForm = RegisterForm(
    fullName: string,
    businessName: string,
    email: string,
    password: string,
    confirmPassword: string,
    acceptTerms: bool)

  const InitialForm := RegisterForm("", "", "", "", "", false)

  /** The `name` attribute of each input. */
  datatype Field = FullName | BusinessName | Email | Password | ConfirmPassword | AcceptTerms

  /** Only the terms input is a checkbox. */
  predicate IsCheckbox(field: Field) {
    field == AcceptTerms
  }

  /** What a field holds. */
  datatype FieldValue = Text(text: string) | Flag(on: bool)

  function Get(form: RegisterForm, field: Field): FieldValue {
    match field
    case FullName => Text(form.fullName)
    case BusinessName => Text(form.businessName)
    case Email => Text(form.email)
    case Password => Text(form.password)
    case ConfirmPassword => Text(form.confirmPassword)
    case AcceptTerms => Flag(form.acceptTerms)
  }

  /** `{...prev, [name]: type === 'checkbox' ? checked : value}`. */
  function Changed(form: RegisterForm, field: Field, value: string, checked: bool): RegisterForm {
    match field
    case FullName => form.(fullName := value)
    case BusinessName => form.(businessName := value)
    case Email => form.(email := value)
    case Password => form.(password := value)
    case ConfirmPassword => form.(confirmPassword := value)
    case AcceptTerms => form.(acceptTerms := checked)
  }

  /** A change event sets the named field to `checked` for the checkbox
      and to `value` otherwise, and leaves every other field as it was. */
  lemma ChangeTouchesOnlyNamedField(form: RegisterForm, field: Field, value: string, checked: bool, other: Field)
    ensures Get(Changed(form, field, value, checked), field) ==
      if IsCheckbox(field) then Flag(checked) else Text(value)
    ensures other != field ==> Get(Changed(form, field, value, checked), other) == Get(form, other)
  {
  }

  const PasswordMismatch := "Passwords do not match"
  const TermsRequired := "You must accept the terms and conditions"
  const RegistrationFailed := "Registration failed. Please try again."

  /** The two checks of `handleSubmit`, in order: the error that stops
      the submit, or `None` when the request may be sent. */
  function Validate(form: RegisterForm): Option<string> {
    if form.password != form.confirmPassword then Some(PasswordMismatch)
    else if !form.acceptTerms then Some(TermsRequired)
    else None
  }

  /** The form passes exactly when the passwords agree and the terms are
      accepted; mismatched passwords are reported whatever the terms box
      says, and the terms error only once the passwords agree. */
  lemma ValidationOrder(form: RegisterForm)
    ensures Validate(form) == None <==> form.password == form.confirmPassword && form.acceptTerms
    ensures form.password != form.confirmPassword ==> Validate(form) == Some(PasswordMismatch)
    ensures Validate(form) == Some(TermsRequired) <==>
      form.password == form.confirmPassword && !form.acceptTerms
  {
  }

  /** The body of `POST /register`. */
  datatype RegisterRequest = RegisterRequest(
    name: string,
    email: string,
    password: string,
    passwordConfirmation: string,
    businessName: string)

  function Payload(form: RegisterForm): RegisterRequest {
    RegisterRequest(form.fullName, form.email, form.password, form.confirmPassword, form.businessName)
  }

  /** The request renames `full_name` to `name` and `confirm_password` to
      `password_confirmation`; a request that passed validation carries
      matching passwords. */
  lemma PayloadMapsFields(form: RegisterForm)
    ensures Payload(form).name == form.fullName && Payload(form).email == form.email
    ensures Payload(form).password == form.password
    ensures Payload(form).passwordConfirmation == form.confirmPassword
    ensures Payload(form).businessName == form.businessName
    ensures Validate(form) == None ==> Payload(form).password == Payload(form).passwordConfirmation
  {
  }

  class RegisterPage {
    const auth: AuthContext.AuthProvider
    var formData: RegisterForm
    /** `''` when no error is shown. */
    var error: string
    /** Set exactly while the `/register` request is outstanding. */
    var isLoading: bool

    constructor (auth: AuthContext.AuthProvider)
      ensures this.auth == auth && formData == InitialForm && error == "" && !isLoading
    {
      this.auth := auth;
      formData := InitialForm;
      error := "";
      isLoading := false;
    }

    /** `handleChange` for the input named `field`. */
    method HandleChange(field: Field, value: string, checked: bool)
      modifies this
      ensures formData == Changed(old(formData), field, value, checked)
      ensures error == old(error) && isLoading == old(isLoading)
    {
      formData := Changed(formData, field, value, checked);
    }

    /** Submitting: the error is cleared, then the checks run in order; a
        failed check shows its message and sends nothing, otherwise
        `isLoading` is set and the mapped request is sent. While a request
        is outstanding the submit is blocked and nothing changes. */
    method Submit() returns (sent: Option<RegisterRequest>)
      modifies this
      ensures old(isLoading) ==> sent == None && error == old(error) && isLoading
      ensures !old(isLoading) && Validate(old(formData)).Some? ==>
        sent == None && error == Validate(old(formData)).value && !isLoading
      ensures !old(isLoading) && Validate(old(formData)).None? ==>
        sent == Some(Payload(old(formData))) && error == "" && isLoading
      ensures formData == old(formData)
    {
      if isLoading {
        return None;
      }
      error := "";
      var problem := Validate(formData);
      if problem.Some? {
        error := problem.value;
        return None;
      }
      isLoading := true;
      sent := Some(Payload(formData));
    }

    /** The answer to the request: a success logs the new account in and
        navigates to onboarding; a failure shows the backend's message, or
        the fixed fallback when it is missing or empty. `isLoading` ends
        false either way. */
    method Respond(outcome: Result<AuthResponse, Option<string>>) returns (navigateTo: Option<string>)
      requires isLoading
      modifies this, auth
      ensures !isLoading && formData == old(formData)
      ensures outcome.Ok? ==>
        && navigateTo == Some("/onboarding")
        && error == old(error)
        && auth.storedToken == Some(outcome.value.token)
        && auth.authHeader == Some(AuthContext.BearerHeader(outcome.value.token))
        && auth.user == Some(outcome.value.user)
      ensures outcome.Err? ==>
        && navigateTo == None
        && error == OrDefault(outcome.error, RegistrationFailed)
        && auth.State() == old(auth.State())
      ensures auth.loading == old(auth.loading)
    {
      match outcome {
        case Ok(data) =>
          auth.Login(data.token, data.user);
          navigateTo := Some("/onboarding");
        case Err(message) =>
          error := OrDefault(message, RegistrationFailed);
          navigateTo := None;
      }
      isLoading := false;
    }
  }
}
