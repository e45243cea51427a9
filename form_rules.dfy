/** The field rules the sign-up and sign-in pages share, the error map their `validateForm`
    fills, and the error clearing of their `handleChange`. */
module FormRules {
  import opened Common
  import opened Text
  import opened EmailFormat

  /** The keys the pages write into their error maps: the form fields and "submit". */
  datatype Key = UsernameKey | EmailKey | PasswordKey | CompanyNameKey | PhoneKey | RoleKey | SubmitKey

  function KeyName(k: Key): string {
    match k
    case UsernameKey => "username"
    case EmailKey => "email"
    case PasswordKey => "password"
    case CompanyNameKey => "companyName"
    case PhoneKey => "phone"
    case RoleKey => "role"
    case SubmitKey => "submit"
  }

  /** Distinct keys have distinct names, so a map over `Key` is a map over their names. */
  lemma KeyNamesDistinct(a: Key, b: Key)
    ensures KeyName(a) == KeyName(b) ==> a == b
  {
  }

  /** `{ [key: string]: string }`: the field errors and the "submit" error. */
  type ErrorMap = map<Key, string>

  const UsernameRequired: string := "Username is required"
  const UsernameTooShort: string := "Username must be at least 3 characters"
  const EmailRequired: string := "Email is required"
  const EmailMalformed: string := "Please enter a valid email address"
  const PasswordRequired: string := "Password is required"
  const PasswordTooShort: string := "Password must be at least 6 characters"
  const MinUsernameLength: nat := 3
  const MinPasswordLength: nat := 6

  /** A value of white space only, which is what `!value.trim()` tests (BlankIffTrimEmpty). */
  predicate Blank(s: string) {
    AllSpace(s)
  }

  lemma BlankIffTrimEmpty(s: string)
    ensures Blank(s) <==> Trim(s) == ""
  {
    TrimEmptyIffAllSpace(s);
  }

  /** An address of the regex's shape is never blank. */
  lemma EmailInFormatNotBlank(e: string)
    ensures MatchesRegex(e) ==> !Blank(e)
  {
    if MatchesRegex(e) {
      var i, j :| && 0 < i && i + 1 < j && j + 1 < |e| && e[i] == '@' && e[j] == '.'
                  && (forall k :: 0 <= k < |e| && k != i ==> PlainAt(e, k));
      assert !IsSpace(e[i]);
    }
  }

  /** The username rule: required after trimming, then at least 3 characters counted on
      the untrimmed value. */
  function UsernameError(u: string): (r: Option<string>)
    ensures r == Some(UsernameRequired) <==> Blank(u)
    ensures r == Some(UsernameTooShort) <==> !Blank(u) && Utf16Length(u) < MinUsernameLength
    ensures r.None? <==> !Blank(u) && Utf16Length(u) >= MinUsernameLength
  {
    if Blank(u) then Some(UsernameRequired)
    else if Utf16Length(u) < MinUsernameLength then Some(UsernameTooShort)
    else None
  }

  /** The e-mail rule: required after trimming, then the regex on the untrimmed value. */
  function EmailError(e: string): (r: Option<string>)
    ensures r == Some(EmailRequired) <==> Blank(e)
    ensures r == Some(EmailMalformed) <==> !Blank(e) && !IsValidEmail(e)
    ensures r.None? <==> !Blank(e) && IsValidEmail(e)
  {
    if Blank(e) then Some(EmailRequired)
    else if !IsValidEmail(e) then Some(EmailMalformed)
    else None
  }

  /** The e-mail rule read in terms of the regex: an address is accepted exactly when it
      has the regex's shape. */
  lemma EmailRuleIsRegex(e: string)
    ensures EmailError(e) == Some(EmailMalformed) <==> !Blank(e) && !MatchesRegex(e)
    ensures EmailError(e).None? <==> MatchesRegex(e)
  {
    EmailRegexIffValid(e);
    EmailInFormatNotBlank(e);
  }

  /** The sign-up password rule: required (not trimmed), then at least 6 characters. */
  function PasswordError(p: string): (r: Option<string>)
    ensures r == Some(PasswordRequired) <==> p == ""
    ensures r == Some(PasswordTooShort) <==> p != "" && Utf16Length(p) < MinPasswordLength
    ensures r.None? <==> Utf16Length(p) >= MinPasswordLength
  {
    if p == "" then Some(PasswordRequired)
    else if Utf16Length(p) < MinPasswordLength then Some(PasswordTooShort)
    else None
  }

  /** A rule that only asks for a non-blank value. */
  function RequiredError(v: string, message: string): (r: Option<string>)
    ensures r.Some? <==> Blank(v)
    ensures r.Some? ==> r.value == message
  {
    if Blank(v) then Some(message) else None
  }

  /** `newErrors[key] = message` when the rule failed. */
  function Record(m: ErrorMap, key: Key, e: Option<string>): (r: ErrorMap)
    ensures e.None? ==> r == m
    ensures e.Some? ==> r == m[key := e.value]
  {
    if e.Some? then m[key := e.value] else m
  }

  /** The error part of `handleChange`: a field's error is blanked when it is set
      (truthy); the keys and every other entry stay. */
  function ClearError(errors: ErrorMap, key: Key): (r: ErrorMap)
    ensures r.Keys == errors.Keys
    ensures forall k :: k in errors && k != key ==> r[k] == errors[k]
    ensures key in r ==> r[key] == ""
  {
    if key in errors && errors[key] != "" then errors[key := ""] else errors
  }

  /** Clearing twice is clearing once. */
  lemma ClearErrorIdempotent(errors: ErrorMap, key: Key)
    ensures ClearError(ClearError(errors, key), key) == ClearError(errors, key)
  {
  }

  /** `.length` counts code units: two characters of the mathematical alphanumerics block
      make a username of length 4, which the three-character rule accepts. */
  lemma AstralUsernameAccepted()
    ensures Utf16Length("\U{1D538}\U{1D539}") == 4
    ensures UsernameError("\U{1D538}\U{1D539}").None?
  {
    var u := "\U{1D538}\U{1D539}";
    assert u[1..][1..] == [];
    assert !IsSpace(u[0]);
  }
}
