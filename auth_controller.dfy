/** Registration and login. Password hashing, password comparison and token signing are
    parameters: `hash` stands for bcrypt.hash, `matches` for bcrypt.compare and `sign` for
    jwt.sign; `secret` is the JWT_SECRET environment variable ("" when unset). */
module AuthController {
  import opened Common
  import opened Text
  import opened EmailFormat
  import opened UserModel

  const RequiredFields: string := "Username, email and password are required"
  const InvalidEmail: string := "Invalid email format"
  const ShortPassword: string := "Password must be at least 6 characters"
  const UserExists: string := "User already exists"
  const ConfigError: string := "Server configuration error"
  const LoginRequired: string := "Email and password are required"
  const InvalidCredentials: string := "Invalid credentials"
  const MinPasswordLength: nat := 6
  const TokenExpiry: string := "24h"

  /** Request body of register; "" stands for a missing (falsy) string. */
  datatype RegisterBody = RegisterBody(
    username: string,
    email: string,
    password: string,
    companyName: Option<string>,
    phone: Option<string>)

  datatype LoginBody = LoginBody(email: string, password: string)

  /** The claims a token carries. */
  datatype TokenClaims = TokenClaims(id: Id, username: string, role: Role)

  /** The user object both handlers answer with. It has no password field. */
  datatype PublicUser = PublicUser(
    id: Id,
    username: string,
    email: string,
    role: Role,
    companyName: Option<string>,
    phone: Option<string>)

  datatype AuthResult = AuthResult(token: string, user: PublicUser)

  /** The response object built from a stored user. The schema has no companyName or phone
      path, so the store keeps neither and both are absent. */
  function ToPublic(u: UserRecord): (p: PublicUser)
    ensures p.id == u.id && p.username == u.fields.username && p.email == u.fields.email
    ensures p.role == u.fields.role && p.companyName.None? && p.phone.None?
  {
    PublicUser(u.id, u.fields.username, u.fields.email, u.fields.role, None, None)
  }

  function ClaimsOf(u: UserRecord): TokenClaims {
    TokenClaims(u.id, u.fields.username, u.fields.role)
  }

  /** The three checks of register, in the order they are made; None when all pass. */
  function RegisterError(b: RegisterBody): (r: Option<string>)
    ensures r.None? <==>
      b.username != "" && b.email != "" && b.password != "" && MatchesRegex(b.email) && Utf16Length(b.password) >= MinPasswordLength
    ensures (b.username == "" || b.email == "" || b.password == "") ==> r == Some(RequiredFields)
    ensures b.username != "" && b.email != "" && b.password != "" && !MatchesRegex(b.email) ==> r == Some(InvalidEmail)
    ensures (b.username != "" && b.email != "" && b.password != "" && MatchesRegex(b.email)
            && Utf16Length(b.password) < MinPasswordLength) ==> r == Some(ShortPassword)
  {
    EmailRegexIffValid(b.email);
    if b.username == "" || b.email == "" || b.password == "" then Some(RequiredFields)
    else if !IsValidEmail(b.email) then Some(InvalidEmail)
    else if Utf16Length(b.password) < MinPasswordLength then Some(ShortPassword)
    else None
  }

  /** `userCount === 0 ? "admin" : "user"`. */
  function BootstrapRole(userCount: nat): (r: Role)
    ensures r == Admin <==> userCount == 0
  {
    if userCount == 0 then Admin else User
  }

  /** The role the controller assigns passes the schema's enum only for the first user: the
      controller's "user" and the schema's admin|manager|client disagree. */
  lemma BootstrapRoleMeetsSchemaOnlyFirst(userCount: nat)
    ensures SchemaRole(BootstrapRole(userCount)) <==> userCount == 0
  {
  }

  /** `User.findOne({ email })` with the e-mail exactly as submitted. */
  predicate EmailTaken(s: seq<UserRecord>, email: string) {
    exists i :: 0 <= i < |s| && s[i].fields.email == email
  }

  /** The document register asks the store to create. */
  function NewUserFields(b: RegisterBody, hashed: string, userCount: nat): UserFields {
    UserFields(Trim(b.username), NormalizeEmail(b.email), hashed, BootstrapRole(userCount))
  }

  /** register. The store refuses the new document (ValidationError or duplicate key) when
      it fails the schema or collides with a unique index; that is a 500. */
  method Register(store: UserCollection, b: RegisterBody, hash: string -> string, secret: string,
                  sign: (TokenClaims, string, string) -> string)
    returns (r: Response<AuthResult>)
    requires store.Valid()
    modifies store
    ensures store.Valid()
    ensures RegisterError(b).Some? ==> r == BadRequest(RegisterError(b).value) && store.users == old(store.users)
    ensures RegisterError(b).None? && EmailTaken(old(store.users), b.email) ==>
      r == BadRequest(UserExists) && store.users == old(store.users)
    ensures
      var f := NewUserFields(b, hash(b.password), |old(store.users)|);
      RegisterError(b).None? && !EmailTaken(old(store.users), b.email) ==>
        if !MeetsSchema(f) || Collides(old(store.users), f) then
          r == ServerError(GenericServerError) && store.users == old(store.users)
        else
          && |store.users| == |old(store.users)| + 1
          && store.users[..|old(store.users)|] == old(store.users)
          && store.users[|old(store.users)|].fields == f
          && (secret == "" ==> r == ServerError(ConfigError))
          && (secret != "" ==>
                var u := store.users[|old(store.users)|];
                r == Created("User registered successfully",
                             AuthResult(sign(ClaimsOf(u), secret, TokenExpiry), ToPublic(u))))
  {
    var err := RegisterError(b);
    if err.Some? {
      return BadRequest(err.value);
    }
    if EmailTaken(store.users, b.email) {
      return BadRequest(UserExists);
    }
    var hashed := hash(b.password);
    var userCount := |store.users|;
    var role := BootstrapRole(userCount);
    var f := UserFields(Trim(b.username), NormalizeEmail(b.email), hashed, role);
    if !MeetsSchema(f) || Collides(store.users, f) {
      return ServerError(GenericServerError);
    }
    var u := store.Insert(f);
    var userResponse := ToPublic(u);
    if secret == "" {
      return ServerError(ConfigError);
    }
    var token := sign(ClaimsOf(u), secret, TokenExpiry);
    r := Created("User registered successfully", AuthResult(token, userResponse));
  }

  /** The first registration on an empty store that passes the checks creates an admin. */
  lemma FirstUserIsAdmin(b: RegisterBody, hashed: string)
    requires RegisterError(b).None? && hashed != "" && Trim(b.username) != ""
    ensures MeetsSchema(NewUserFields(b, hashed, 0))
    ensures NewUserFields(b, hashed, 0).role == Admin
  {
    assert MatchesRegex(b.email);
    NormalizedEmailInFormat(b.email);
  }

  /** A later registration is refused by the role enum, whatever the body. */
  lemma LaterUsersRefused(b: RegisterBody, hashed: string, userCount: nat)
    requires userCount > 0
    ensures !MeetsSchema(NewUserFields(b, hashed, userCount))
    ensures NewUserFields(b, hashed, userCount).role == User
  {
  }

  /** The duplicate check compares the e-mail as submitted while the store keeps it
      lower-cased: when the stored addresses are lower-case (as register stores them), a
      case variant of a registered address passes the check and then collides with the
      unique index. */
  lemma CaseVariantPassesDuplicateCheck(s: seq<UserRecord>, b: RegisterBody, hashed: string, k: nat)
    requires k < |s| && RegisterError(b).None?
    requires forall i :: 0 <= i < |s| ==> ToLower(s[i].fields.email) == s[i].fields.email
    requires ToLower(b.email) == s[k].fields.email && b.email != s[k].fields.email
    ensures !EmailTaken(s, b.email)
    ensures Collides(s, NewUserFields(b, hashed, |s|))
  {
    assert MatchesRegex(b.email);
    NormalizedEmailInFormat(b.email);
    assert NewUserFields(b, hashed, |s|).email == s[k].fields.email;
  }

  /** Register stores a lower-case address, so the precondition above holds of every store
      built by register alone. */
  lemma StoredEmailIsLowerCase(b: RegisterBody, hashed: string, userCount: nat)
    requires RegisterError(b).None?
    ensures ToLower(NewUserFields(b, hashed, userCount).email) == NewUserFields(b, hashed, userCount).email
  {
    assert MatchesRegex(b.email);
    NormalizedEmailInFormat(b.email);
    LowerIdempotent(b.email);
  }

  function FirstWithEmail(s: seq<UserRecord>, email: string): (r: Option<nat>)
    ensures r.Some? ==> r.value < |s| && s[r.value].fields.email == email
    ensures r.None? <==> !EmailTaken(s, email)
  {
    if s == [] then None
    else if s[0].fields.email == email then Some(0)
    else match FirstWithEmail(s[1..], email)
      case None => (assert forall k :: 1 <= k < |s| ==> s[k] == s[1..][k - 1]; None)
      case Some(k) => Some(k + 1)
  }

  /** login. Reads the store and changes nothing. */
  method Login(store: UserCollection, b: LoginBody, secret: string, matches: (string, string) -> bool,
               sign: (TokenClaims, string, string) -> string)
    returns (r: Response<AuthResult>)
    requires store.Valid()
    ensures (b.email == "" || b.password == "") ==> r == BadRequest(LoginRequired)
    ensures b.email != "" && b.password != "" && secret == "" ==> r == ServerError(ConfigError)
    ensures b.email != "" && b.password != "" && secret != "" ==>
      (r.Ok? <==> exists i :: 0 <= i < |store.users| && store.users[i].fields.email == NormalizeEmail(b.email)
                              && matches(b.password, store.users[i].fields.password))
    ensures b.email != "" && b.password != "" && secret != "" && !r.Ok? ==> r == BadRequest(InvalidCredentials)
    ensures r.Ok? ==>
      exists i :: 0 <= i < |store.users| && store.users[i].fields.email == NormalizeEmail(b.email)
        && r == Ok("Login successful",
                   AuthResult(sign(ClaimsOf(store.users[i]), secret, TokenExpiry), ToPublic(store.users[i])))
  {
    if b.email == "" || b.password == "" {
      return BadRequest(LoginRequired);
    }
    if secret == "" {
      return ServerError(ConfigError);
    }
    var found := FirstWithEmail(store.users, NormalizeEmail(b.email));
    if found.None? {
      return BadRequest(InvalidCredentials);
    }
    var u := store.users[found.value];
    if !matches(b.password, u.fields.password) {
      StoredEmailUnique(store, found.value);
      return BadRequest(InvalidCredentials);
    }
    var token := sign(ClaimsOf(u), secret, TokenExpiry);
    r := Ok("Login successful", AuthResult(token, ToPublic(u)));
  }

  lemma StoredEmailUnique(store: UserCollection, k: nat)
    requires store.Valid() && k < |store.users|
    ensures forall i :: 0 <= i < |store.users| && store.users[i].fields.email == store.users[k].fields.email ==> i == k
  {
  }
}
