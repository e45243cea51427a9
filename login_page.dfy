/** The sign-in page (client/app/login/page.tsx): the e-mail rule of the sign-up pages, a
    password that is only required, and a submit that writes the session on success. The
    login request and `JSON.stringify` are parameters. */
module LoginPage {
  import opened Common
  import opened EmailFormat
  import opened FormRules
  import opened Session

  const LoginFailed: string := "Login failed"
  const DashboardRoute: string := "/dashboard"

  datatype LoginForm = LoginForm(email: string, password: string)

  datatype Field = Email | Password

  function FieldKey(f: Field): Key {
    match f
    case Email => EmailKey
    case Password => PasswordKey
  }

  function SetField(form: LoginForm, f: Field, v: string): (r: LoginForm)
    ensures f == Email ==> r == form.(email := v)
    ensures f == Password ==> r == form.(password := v)
  {
    match f
    case Email => form.(email := v)
    case Password => form.(password := v)
  }

  /** The sign-in password rule: present, whatever its length. */
  function PasswordMissing(p: string): (r: Option<string>)
    ensures r.Some? <==> p == ""
    ensures r.Some? ==> r.value == PasswordRequired
  {
    if p == "" then Some(PasswordRequired) else None
  }

  function FormErrors(form: LoginForm): ErrorMap {
    var m0: ErrorMap := map[];
    var m1 := Record(m0, EmailKey, EmailError(form.email));
    Record(m1, PasswordKey, PasswordMissing(form.password))
  }

  predicate Acceptable(form: LoginForm) {
    !Blank(form.email) && IsValidEmail(form.email) && form.password != ""
  }

  lemma FormErrorsPerField(form: LoginForm)
    ensures FormErrors(form).Keys <= {EmailKey, PasswordKey}
    ensures EmailKey in FormErrors(form) <==> EmailError(form.email).Some?
    ensures EmailKey in FormErrors(form) ==> FormErrors(form)[EmailKey] == EmailError(form.email).value
    ensures PasswordKey in FormErrors(form) <==> form.password == ""
    ensures PasswordKey in FormErrors(form) ==> FormErrors(form)[PasswordKey] == PasswordRequired
  {
  }

  /** The accepted forms: an address of the regex's shape and any non-empty password. */
  lemma AcceptableInPlainTerms(form: LoginForm)
    ensures Acceptable(form) <==> MatchesRegex(form.email) && form.password != ""
  {
    EmailRuleIsRegex(form.email);
  }

  lemma NoErrorsIffAcceptable(form: LoginForm)
    ensures |FormErrors(form)| == 0 <==> Acceptable(form)
  {
    FormErrorsPerField(form);
    if Acceptable(form) {
      assert FormErrors(form) == map[];
    } else if EmailError(form.email).Some? {
      assert EmailKey in FormErrors(form);
    } else {
      assert PasswordKey in FormErrors(form);
    }
  }

  /** The body of `validateForm`. */
  method CollectErrors(form: LoginForm) returns (newErrors: ErrorMap)
    ensures newErrors == FormErrors(form)
    ensures |newErrors| == 0 <==> Acceptable(form)
  {
    newErrors := map[];
    if Blank(form.email) {
      newErrors := newErrors[EmailKey := EmailRequired];
    } else if !IsValidEmail(form.email) {
      newErrors := newErrors[EmailKey := EmailMalformed];
    }
    if form.password == "" {
      newErrors := newErrors[PasswordKey := PasswordRequired];
    }
    NoErrorsIffAcceptable(form);
  }

  class LoginPageState {
    var form: LoginForm
    var errors: ErrorMap
    var loading: bool
    var location: Option<string>

    constructor ()
      ensures form == LoginForm("", "") && errors == map[] && !loading && location.None?
    {
      form := LoginForm("", "");
      errors := map[];
      loading := false;
      location := None;
    }

    method ValidateForm() returns (valid: bool)
      modifies this
      ensures errors == FormErrors(form) && (valid <==> Acceptable(form))
      ensures form == old(form) && loading == old(loading) && location == old(location)
    {
      var newErrors := CollectErrors(form);
      errors := newErrors;
      valid := |newErrors| == 0;
    }

    method HandleChange(f: Field, v: string)
      modifies this
      ensures form == SetField(old(form), f, v)
      ensures errors == ClearError(old(errors), FieldKey(f))
      ensures loading == old(loading) && location == old(location)
    {
      form := SetField(form, f, v);
      errors := ClearError(errors, FieldKey(f));
    }

    /** `handleSubmit`. `sent` is the e-mail and password of the login request when it is
        made. On success the page writes the session and leaves for the dashboard with
        loading still set; on failure it records the submit error and ends loading. */
    method HandleSubmit(storage: BrowserStorage, outcome: ApiOutcome<LoginAnswer>, serialize: SessionUser -> string)
      returns (sent: Option<(string, string)>)
      modifies this, storage
      ensures form == old(form)
      ensures !Acceptable(old(form)) ==>
        && sent.None? && errors == FormErrors(old(form)) && storage.items == old(storage.items)
        && loading == old(loading) && location == old(location)
      ensures Acceptable(old(form)) ==> sent == Some((old(form).email, old(form).password))
      ensures Acceptable(old(form)) && outcome.Success? ==>
        && storage.items == AfterLogin(old(storage.items), outcome.value, serialize)
        && errors == map[] && loading && location == Some(DashboardRoute)
      ensures Acceptable(old(form)) && outcome.Failure? ==>
        && storage.items == old(storage.items)
        && errors == map[SubmitKey := MessageOr(outcome.message, LoginFailed)]
        && !loading && location == old(location)
    {
      var valid := ValidateForm();
      if !valid {
        return None;
      }
      loading := true;
      errors := map[];
      sent := Some((form.email, form.password));
      match outcome {
        case Success(answer) =>
          storage.SetItem(TokenKey, answer.token);
          storage.SetItem(UserDataKey, serialize(answer.user));
          location := Some(DashboardRoute);
        case Failure(message) =>
          errors := map[SubmitKey := MessageOr(message, LoginFailed)];
          loading := false;
      }
    }
  }
}
