/** The client's session provider (client/contexts/AuthContext.tsx): `user` and `loading`
    beside the browser storage, and the `checkAuth`, `login`, `logout` and `useAuth`
    operations. The login request, `JSON.parse` and `JSON.stringify` are parameters. */
module AuthContext {
  import opened Common
  import opened Session

  const OutsideProvider: string := "useAuth must be used within an AuthProvider"
  const LandingRoute: string := "/"

  /** What the provider hands to its consumers. */
  datatype AuthValue = AuthValue(user: Option<SessionUser>, loading: bool)

  /** `useAuth`: the context value, or the error it throws outside a provider. */
  function UseAuth(context: Option<AuthValue>): (r: ApiOutcome<AuthValue>)
    ensures context.None? <==> r == Failure(OutsideProvider)
    ensures context.Some? ==> r == Success(context.value)
  {
    match context
    case None => Failure(OutsideProvider)
    case Some(v) => Success(v)
  }

  class AuthProvider {
    var user: Option<SessionUser>
    var loading: bool
    /** Where `window.location.href` was sent, if anywhere. */
    var location: Option<string>

    constructor ()
      ensures user.None? && loading && location.None?
    {
      user := None;
      loading := true;
      location := None;
    }

    function Value(): AuthValue
      reads this
    {
      AuthValue(user, loading)
    }

    /** `checkAuth`: restores the user from a truthy token and a parsable userData, drops
        both keys when userData does not parse, and always ends loading. */
    method CheckAuth(storage: BrowserStorage, parse: string -> Option<SessionUser>)
      modifies this, storage
      ensures var found := RestoreSession(old(storage.items), parse);
        && storage.items == found.items
        && user == (if found.user.Some? then found.user else old(user))
      ensures !loading && location == old(location)
    {
      var token := storage.GetItem(TokenKey);
      var userData := storage.GetItem(UserDataKey);
      if token.Some? && token.value != "" && userData.Some? && userData.value != "" {
        var parsed := parse(userData.value);
        if parsed.Some? {
          user := parsed;
        } else {
          storage.RemoveItem(TokenKey);
          storage.RemoveItem(UserDataKey);
        }
      }
      loading := false;
    }

    /** `login`: on a rejected request nothing changes and the error propagates (`thrown`);
        otherwise both keys are written and the user is set. */
    method Login(storage: BrowserStorage, outcome: ApiOutcome<LoginAnswer>, serialize: SessionUser -> string)
      returns (thrown: Option<string>)
      modifies this, storage
      ensures loading == old(loading) && location == old(location)
      ensures outcome.Failure? ==>
        thrown == Some(outcome.message) && user == old(user) && storage.items == old(storage.items)
      ensures outcome.Success? ==>
        && thrown.None?
        && storage.items == AfterLogin(old(storage.items), outcome.value, serialize)
        && user == Some(outcome.value.user)
    {
      match outcome {
        case Failure(message) =>
          return Some(message);
        case Success(answer) =>
          storage.SetItem(TokenKey, answer.token);
          storage.SetItem(UserDataKey, serialize(answer.user));
          user := Some(answer.user);
          thrown := None;
      }
    }

    /** `logout`: removes both keys, clears the user and goes to the landing page. */
    method Logout(storage: BrowserStorage)
      modifies this, storage
      ensures storage.items == old(storage.items) - {TokenKey, UserDataKey}
      ensures user.None? && location == Some(LandingRoute) && loading == old(loading)
    {
      storage.RemoveItem(TokenKey);
      storage.RemoveItem(UserDataKey);
      user := None;
      location := Some(LandingRoute);
    }
  }
}
