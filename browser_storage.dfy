/** The two-key session the client keeps in `localStorage` ("token" and "userData"), the
    user object it stores, and what the provider's `checkAuth` recovers from it. */
module Session {
  import opened Common

  const TokenKey: string := "token"
  const UserDataKey: string := "userData"

  /** The `user` object of a login answer, as the client keeps it. */
  datatype SessionUser = SessionUser(id: string, username: string, email: string, role: string)

  /** The answer of the login request: the token and the user. */
  datatype LoginAnswer = LoginAnswer(token: string, user: SessionUser)

  /** `localStorage`: string keys to string values. */
  class BrowserStorage {
    var items: map<string, string>

    constructor ()
      ensures items == map[]
    {
      items := map[];
    }

    /** `getItem`: null (None) for a missing key. */
    function GetItem(key: string): (r: Option<string>)
      reads this
      ensures r.Some? <==> key in items
      ensures r.Some? ==> r.value == items[key]
    {
      if key in items then Some(items[key]) else None
    }

    method SetItem(key: string, value: string)
      modifies this
      ensures items == old(items)[key := value]
    {
      items := items[key := value];
    }

    method RemoveItem(key: string)
      modifies this
      ensures items == old(items) - {key}
    {
      items := items - {key};
    }
  }

  /** A stored value that is truthy: present and not "". */
  predicate Present(items: map<string, string>, key: string) {
    key in items && items[key] != ""
  }

  /** The storage a successful login leaves: both keys written, everything else kept. */
  function AfterLogin(items: map<string, string>, answer: LoginAnswer, serialize: SessionUser -> string): (r: map<string, string>)
    ensures r.Keys == items.Keys + {TokenKey, UserDataKey}
    ensures r[TokenKey] == answer.token && r[UserDataKey] == serialize(answer.user)
    ensures forall k :: k in items && k != TokenKey && k != UserDataKey ==> r[k] == items[k]
  {
    items[TokenKey := answer.token][UserDataKey := serialize(answer.user)]
  }

  /** What `checkAuth` finds in the storage: the user it sets (None when it sets none) and
      the storage it leaves. */
  datatype Restored = Restored(user: Option<SessionUser>, items: map<string, string>)

  /** checkAuth over the stored items; `parse` stands for `JSON.parse`, None when it throws. */
  function RestoreSession(items: map<string, string>, parse: string -> Option<SessionUser>): (r: Restored)
    ensures r.user.Some? <==>
      Present(items, TokenKey) && Present(items, UserDataKey) && parse(items[UserDataKey]).Some?
    ensures r.user.Some? ==> r.user == parse(items[UserDataKey]) && r.items == items
    ensures (Present(items, TokenKey) && Present(items, UserDataKey) && parse(items[UserDataKey]).None?) ==>
      r.items == items - {TokenKey, UserDataKey}
    ensures !(Present(items, TokenKey) && Present(items, UserDataKey)) ==> r.items == items
  {
    if Present(items, TokenKey) && Present(items, UserDataKey) then
      match parse(items[UserDataKey])
      case Some(u) => Restored(Some(u), items)
      case None => Restored(None, items - {TokenKey, UserDataKey})
    else Restored(None, items)
  }

  /** A second checkAuth finds what the first found and changes nothing more. */
  lemma RestoreIsStable(items: map<string, string>, parse: string -> Option<SessionUser>)
    ensures RestoreSession(RestoreSession(items, parse).items, parse) == RestoreSession(items, parse)
  {
  }

  /** After a login whose token is not "" and whose user serialises to text that parses
      back, checkAuth recovers that user. */
  lemma LoginIsRestored(items: map<string, string>, answer: LoginAnswer,
                        serialize: SessionUser -> string, parse: string -> Option<SessionUser>)
    requires answer.token != "" && serialize(answer.user) != ""
    requires parse(serialize(answer.user)) == Some(answer.user)
    ensures RestoreSession(AfterLogin(items, answer, serialize), parse).user == Some(answer.user)
  {
  }

  /** After the two keys are removed, checkAuth finds no user and leaves the storage. */
  lemma LogoutIsNotRestored(items: map<string, string>, parse: string -> Option<SessionUser>)
    ensures RestoreSession(items - {TokenKey, UserDataKey}, parse) == Restored(None, items - {TokenKey, UserDataKey})
  {
  }
}
