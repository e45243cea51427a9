/** The sign-up page with company details (client/app/register/page.tsx): the form state,
    `validateForm`, `handleChange` and the guarded submit. The register request is a
    parameter: `outcome` is how it comes back when it is made. */
module RegisterPage {
  import opened Common
  import opened Text
  import opened EmailFormat
  import opened FormRules
  import AuthController

  const CompanyRequired: string := "Company name is required"
  const PhoneRequired: string := "Phone number is required"
  const RegistrationFailed: string := "Registration failed"
  const RegisteredAlert: string := "Registration successful! Please login to continue."
  const LoginRoute: string := "/login"

  datatype RegisterForm = RegisterForm(
    username: string,
    email: string,
    password: string,
    companyName: string,
    phone: string)

  datatype Field = Username | Email | Password | CompanyName | Phone

  function FieldKey(f: Field): Key {
    match f
    case Username => UsernameKey
    case Email => EmailKey
    case Password => PasswordKey
    case CompanyName => CompanyNameKey
    case Phone => PhoneKey
  }

  /** `{ ...form, [field]: value }`. */
  function SetField(form: RegisterForm, f: Field, v: string): (r: RegisterForm)
    ensures f == Username ==> r == form.(username := v)
    ensures f == Email ==> r == form.(email := v)
    ensures f == Password ==> r == form.(password := v)
    ensures f == CompanyName ==> r == form.(companyName := v)
    ensures f == Phone ==> r == form.(phone := v)
  {
    match f
    case Username => form.(username := v)
    case Email => form.(email := v)
    case Password => form.(password := v)
    case CompanyName => form.(companyName := v)
    case Phone => form.(phone := v)
  }

  /** The error map the page derives from a form, rule by rule. */
  function FormErrors(form: RegisterForm): ErrorMap {
    var m0: ErrorMap := map[];
    var m1 := Record(m0, UsernameKey, UsernameError(form.username));
    var m2 := Record(m1, EmailKey, EmailError(form.email));
    var m3 := Record(m2, PasswordKey, PasswordError(form.password));
    var m4 := Record(m3, CompanyNameKey, RequiredError(form.companyName, CompanyRequired));
    Record(m4, PhoneKey, RequiredError(form.phone, PhoneRequired))
  }

  /** What the rules accept. */
  predicate Acceptable(form: RegisterForm) {
    && !Blank(form.username) && Utf16Length(form.username) >= MinUsernameLength
    && !Blank(form.email) && IsValidEmail(form.email)
    && Utf16Length(form.password) >= MinPasswordLength
    && !Blank(form.companyName)
    && !Blank(form.phone)
  }

  /** The accepted forms, in terms of white space and the e-mail regex. */
  lemma AcceptableInPlainTerms(form: RegisterForm)
    ensures Acceptable(form) <==>
      && !AllSpace(form.username) && Utf16Length(form.username) >= MinUsernameLength
      && MatchesRegex(form.email)
      && Utf16Length(form.password) >= MinPasswordLength
      && !AllSpace(form.companyName)
      && !AllSpace(form.phone)
  {
    EmailRuleIsRegex(form.email);
  }

  /** Every field has at most one message, the message its rule gives, and only the five
      fields have entries. */
  lemma FormErrorsPerField(form: RegisterForm)
    ensures FormErrors(form).Keys <= {UsernameKey, EmailKey, PasswordKey, CompanyNameKey, PhoneKey}
    ensures UsernameKey in FormErrors(form) <==> UsernameError(form.username).Some?
    ensures UsernameKey in FormErrors(form) ==> FormErrors(form)[UsernameKey] == UsernameError(form.username).value
    ensures EmailKey in FormErrors(form) <==> EmailError(form.email).Some?
    ensures EmailKey in FormErrors(form) ==> FormErrors(form)[EmailKey] == EmailError(form.email).value
    ensures PasswordKey in FormErrors(form) <==> PasswordError(form.password).Some?
    ensures PasswordKey in FormErrors(form) ==> FormErrors(form)[PasswordKey] == PasswordError(form.password).value
    ensures CompanyNameKey in FormErrors(form) <==> Blank(form.companyName)
    ensures CompanyNameKey in FormErrors(form) ==> FormErrors(form)[CompanyNameKey] == CompanyRequired
    ensures PhoneKey in FormErrors(form) <==> Blank(form.phone)
    ensures PhoneKey in FormErrors(form) ==> FormErrors(form)[PhoneKey] == PhoneRequired
  {
  }

  /** `Object.keys(newErrors).length === 0` exactly when every rule accepts. */
  lemma NoErrorsIffAcceptable(form: RegisterForm)
    ensures |FormErrors(form)| == 0 <==> Acceptable(form)
  {
    FormErrorsPerField(form);
    if Acceptable(form) {
      assert FormErrors(form) == map[];
    } else {
      if UsernameError(form.username).Some? {
        assert UsernameKey in FormErrors(form);
      } else if EmailError(form.email).Some? {
        assert EmailKey in FormErrors(form);
      } else if PasswordError(form.password).Some? {
        assert PasswordKey in FormErrors(form);
      } else if Blank(form.companyName) {
        assert CompanyNameKey in FormErrors(form);
      } else {
        assert PhoneKey in FormErrors(form);
      }
    }
  }

  /** The body of `validateForm`: the error map filled field by field. */
  method CollectErrors(form: RegisterForm) returns (newErrors: ErrorMap)
    ensures newErrors == FormErrors(form)
    ensures |newErrors| == 0 <==> Acceptable(form)
  {
    newErrors := map[];
    if Blank(form.username) {
      newErrors := newErrors[UsernameKey := UsernameRequired];
    } else if Utf16Length(form.username) < MinUsernameLength {
      newErrors := newErrors[UsernameKey := UsernameTooShort];
    }
    if Blank(form.email) {
      newErrors := newErrors[EmailKey := EmailRequired];
    } else if !IsValidEmail(form.email) {
      newErrors := newErrors[EmailKey := EmailMalformed];
    }
    if form.password == "" {
      newErrors := newErrors[PasswordKey := PasswordRequired];
    } else if Utf16Length(form.password) < MinPasswordLength {
      newErrors := newErrors[PasswordKey := PasswordTooShort];
    }
    if Blank(form.companyName) {
      newErrors := newErrors[CompanyNameKey := CompanyRequired];
    }
    if Blank(form.phone) {
      newErrors := newErrors[PhoneKey := PhoneRequired];
    }
    NoErrorsIffAcceptable(form);
  }

  /** The body the page sends for a form. */
  function RequestBody(form: RegisterForm): AuthController.RegisterBody {
    AuthController.RegisterBody(form.username, form.email, form.password,
                                Some(form.companyName), Some(form.phone))
  }

  /** A form the page accepts passes the register controller's own three checks. */
  lemma AcceptedFormPassesServerChecks(form: RegisterForm)
    requires Acceptable(form)
    ensures AuthController.RegisterError(RequestBody(form)).None?
  {
    AcceptableInPlainTerms(form);
  }

  class RegisterPageState {
    var form: RegisterForm
    var errors: ErrorMap
    var loading: bool
    /** The page `router.push` moved to, if any. */
    var route: Option<string>
    /** The last `alert` shown, if any. */
    var alerted: Option<string>

    constructor ()
      ensures form == RegisterForm("", "", "", "", "") && errors == map[] && !loading
      ensures route.None? && alerted.None?
    {
      form := RegisterForm("", "", "", "", "");
      errors := map[];
      loading := false;
      route := None;
      alerted := None;
    }

    /** `validateForm`: records the errors of the current form and reports whether
        there are none. */
    method ValidateForm() returns (valid: bool)
      modifies this
      ensures errors == FormErrors(form) && (valid <==> Acceptable(form))
      ensures form == old(form) && loading == old(loading)
      ensures route == old(route) && alerted == old(alerted)
    {
      var newErrors := CollectErrors(form);
      errors := newErrors;
      valid := |newErrors| == 0;
    }

    /** `handleChange`: sets one field and blanks that field's error only. */
    method HandleChange(f: Field, v: string)
      modifies this
      ensures form == SetField(old(form), f, v)
      ensures errors == ClearError(old(errors), FieldKey(f))
      ensures loading == old(loading) && route == old(route) && alerted == old(alerted)
    {
      form := SetField(form, f, v);
      errors := ClearError(errors, FieldKey(f));
    }

    /** `handleSubmit`, to the end of its `finally`. `sent` is the request body when the
        register request is made. */
    method HandleSubmit(outcome: ApiOutcome<()>) returns (sent: Option<RegisterForm>)
      modifies this
      ensures form == old(form)
      ensures !Acceptable(old(form)) ==>
        sent.None? && errors == FormErrors(old(form))
        && loading == old(loading) && route == old(route) && alerted == old(alerted)
      ensures Acceptable(old(form)) ==> sent == Some(old(form)) && !loading
      ensures Acceptable(old(form)) && outcome.Success? ==>
        errors == map[] && alerted == Some(RegisteredAlert) && route == Some(LoginRoute)
      ensures Acceptable(old(form)) && outcome.Failure? ==>
        errors == map[SubmitKey := MessageOr(outcome.message, RegistrationFailed)]
        && alerted == old(alerted) && route == old(route)
    {
      var valid := ValidateForm();
      if !valid {
        return None;
      }
      loading := true;
      errors := map[];
      sent := Some(form);
      match outcome {
        case Success(_) =>
          alerted := Some(RegisteredAlert);
          route := Some(LoginRoute);
        case Failure(message) =>
          errors := map[SubmitKey := MessageOr(message, RegistrationFailed)];
      }
      loading := false;
    }
  }
}
