/** The sign-up page with a role picker (client/app/registration/page.tsx): the same
    credential rules as the other sign-up page, no company or phone rules, and a `role`
    field that starts as "client". The register request is a parameter. */
module RegistrationPage {
  import opened Common
  import opened Text
  import opened EmailFormat
  import opened FormRules
  import AuthController
  import RegisterPage

  const DefaultFormRole: string := "client"
  /** The values of the role `<select>`, in display order. */
  const RoleOptions: seq<string> := ["client", "manager", "admin"]
  const RegistrationFailed: string := "Registration failed"
  const RegisteredAlert: string := "Registration successful! Please login to continue."
  const LoginRoute: string := "/login"

  datatype RegistrationForm = RegistrationForm(username: string, email: string, password: string, role: string)

  const InitialForm: RegistrationForm := RegistrationForm("", "", "", DefaultFormRole)

  datatype Field = Username | Email | Password | RoleField

  function FieldKey(f: Field): Key {
    match f
    case Username => UsernameKey
    case Email => EmailKey
    case Password => PasswordKey
    case RoleField => RoleKey
  }

  function SetField(form: RegistrationForm, f: Field, v: string): (r: RegistrationForm)
    ensures f == Username ==> r == form.(username := v)
    ensures f == Email ==> r == form.(email := v)
    ensures f == Password ==> r == form.(password := v)
    ensures f == RoleField ==> r == form.(role := v)
  {
    match f
    case Username => form.(username := v)
    case Email => form.(email := v)
    case Password => form.(password := v)
    case RoleField => form.(role := v)
  }

  function FormErrors(form: RegistrationForm): ErrorMap {
    var m0: ErrorMap := map[];
    var m1 := Record(m0, UsernameKey, UsernameError(form.username));
    var m2 := Record(m1, EmailKey, EmailError(form.email));
    Record(m2, PasswordKey, PasswordError(form.password))
  }

  predicate Acceptable(form: RegistrationForm) {
    && !Blank(form.username) && Utf16Length(form.username) >= MinUsernameLength
    && !Blank(form.email) && IsValidEmail(form.email)
    && Utf16Length(form.password) >= MinPasswordLength
  }

  /** Only the three credential fields can have errors, each the message of its rule;
      the role is never checked. */
  lemma FormErrorsPerField(form: RegistrationForm)
    ensures FormErrors(form).Keys <= {UsernameKey, EmailKey, PasswordKey}
    ensures UsernameKey in FormErrors(form) <==> UsernameError(form.username).Some?
    ensures UsernameKey in FormErrors(form) ==> FormErrors(form)[UsernameKey] == UsernameError(form.username).value
    ensures EmailKey in FormErrors(form) <==> EmailError(form.email).Some?
    ensures EmailKey in FormErrors(form) ==> FormErrors(form)[EmailKey] == EmailError(form.email).value
    ensures PasswordKey in FormErrors(form) <==> PasswordError(form.password).Some?
    ensures PasswordKey in FormErrors(form) ==> FormErrors(form)[PasswordKey] == PasswordError(form.password).value
  {
  }

  /** The credential rules are those of the other sign-up page: its error map without the
      company and phone entries. */
  lemma SameCredentialRules(form: RegistrationForm, companyName: string, phone: string)
    ensures FormErrors(form) ==
      RegisterPage.FormErrors(RegisterPage.RegisterForm(form.username, form.email, form.password, companyName, phone))
        - {CompanyNameKey, PhoneKey}
  {
    var other := RegisterPage.RegisterForm(form.username, form.email, form.password, companyName, phone);
    FormErrorsPerField(form);
    RegisterPage.FormErrorsPerField(other);
    var a := FormErrors(form);
    var b := RegisterPage.FormErrors(other) - {CompanyNameKey, PhoneKey};
    assert forall k :: k in a <==> k in b;
  }

  lemma NoErrorsIffAcceptable(form: RegistrationForm)
    ensures |FormErrors(form)| == 0 <==> Acceptable(form)
  {
    FormErrorsPerField(form);
    if Acceptable(form) {
      assert FormErrors(form) == map[];
    } else if UsernameError(form.username).Some? {
      assert UsernameKey in FormErrors(form);
    } else if EmailError(form.email).Some? {
      assert EmailKey in FormErrors(form);
    } else {
      assert PasswordKey in FormErrors(form);
    }
  }

  /** The body of `validateForm`. */
  method CollectErrors(form: RegistrationForm) returns (newErrors: ErrorMap)
    ensures newErrors == FormErrors(form)
    ensures |newErrors| == 0 <==> Acceptable(form)
  {
    newErrors := map[];
    if Blank(form.username) {
      newErrors := newErrors[UsernameKey := UsernameRequired];
    } else if Utf16Length(form.username) < MinUsernameLength {
      newErrors := newErrors[UsernameKey := UsernameTooShort];
    }
    if Blank(form.email) {
      newErrors := newErrors[EmailKey := EmailRequired];
    } else if !IsValidEmail(form.email) {
      newErrors := newErrors[EmailKey := EmailMalformed];
    }
    if form.password == "" {
      newErrors := newErrors[PasswordKey := PasswordRequired];
    } else if Utf16Length(form.password) < MinPasswordLength {
      newErrors := newErrors[PasswordKey := PasswordTooShort];
    }
    NoErrorsIffAcceptable(form);
  }

  /** `req.body` as the register controller reads it: the role is not among its fields. */
  function RequestBody(form: RegistrationForm): AuthController.RegisterBody {
    AuthController.RegisterBody(form.username, form.email, form.password, None, None)
  }

  /** The role picked on the page has no effect on the registration. */
  lemma RoleIsIgnored(form: RegistrationForm, role: string)
    ensures RequestBody(form.(role := role)) == RequestBody(form)
    ensures AuthController.RegisterError(RequestBody(form.(role := role))) == AuthController.RegisterError(RequestBody(form))
  {
  }

  /** An accepted form passes the register controller's three checks. */
  lemma AcceptedFormPassesServerChecks(form: RegistrationForm)
    requires Acceptable(form)
    ensures AuthController.RegisterError(RequestBody(form)).None?
  {
    EmailRuleIsRegex(form.email);
  }

  class RegistrationPageState {
    var form: RegistrationForm
    var errors: ErrorMap
    var loading: bool
    var route: Option<string>
    var alerted: Option<string>

    constructor ()
      ensures form == InitialForm && form.role in RoleOptions
      ensures errors == map[] && !loading && route.None? && alerted.None?
    {
      form := InitialForm;
      errors := map[];
      loading := false;
      route := None;
      alerted := None;
    }

    method ValidateForm() returns (valid: bool)
      modifies this
      ensures errors == FormErrors(form) && (valid <==> Acceptable(form))
      ensures form == old(form) && loading == old(loading)
      ensures route == old(route) && alerted == old(alerted)
    {
      var newErrors := CollectErrors(form);
      errors := newErrors;
      valid := |newErrors| == 0;
    }

    /** `handleChange`: sets one field and blanks that field's error only. */
    method HandleChange(f: Field, v: string)
      modifies this
      ensures form == SetField(old(form), f, v)
      ensures errors == ClearError(old(errors), FieldKey(f))
      ensures loading == old(loading) && route == old(route) && alerted == old(alerted)
    {
      form := SetField(form, f, v);
      errors := ClearError(errors, FieldKey(f));
    }

    /** `handleSubmit`, to the end of its `finally`; `sent` is the posted form. */
    method HandleSubmit(outcome: ApiOutcome<()>) returns (sent: Option<RegistrationForm>)
      modifies this
      ensures form == old(form)
      ensures !Acceptable(old(form)) ==>
        sent.None? && errors == FormErrors(old(form))
        && loading == old(loading) && route == old(route) && alerted == old(alerted)
      ensures Acceptable(old(form)) ==> sent == Some(old(form)) && !loading
      ensures Acceptable(old(form)) && outcome.Success? ==>
        errors == map[] && alerted == Some(RegisteredAlert) && route == Some(LoginRoute)
      ensures Acceptable(old(form)) && outcome.Failure? ==>
        errors == map[SubmitKey := MessageOr(outcome.message, RegistrationFailed)]
        && alerted == old(alerted) && route == old(route)
    {
      var valid := ValidateForm();
      if !valid {
        return None;
      }
      loading := true;
      errors := map[];
      sent := Some(form);
      match outcome {
        case Success(_) =>
          alerted := Some(RegisteredAlert);
          route := Some(LoginRoute);
        case Failure(message) =>
          errors := map[SubmitKey := MessageOr(message, RegistrationFailed)];
      }
      loading := false;
    }
  }
}
