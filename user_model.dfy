/** The User schema: required username, email and password, unique usernames and e-mails,
    and the role enum admin|manager|client with default client. */
module UserModel {
  import opened Common
  import Seqs

  const DefaultRole: Role := Client

  /** The values the schema's `role` enum admits. "user" is not one of them. */
  predicate SchemaRole(r: Role) {
    r == Admin || r == Manager || r == Client
  }

  /** The role claim's type in the request typings names the same three values. */
  predicate ClaimRole(r: Role) {
    r in {Admin, Manager, Client}
  }

  lemma SchemaAndClaimsAgree(r: Role)
    ensures SchemaRole(r) <==> ClaimRole(r)
    ensures !SchemaRole(User) && RoleName(User) == "user"
  {
  }

  datatype UserFields = UserFields(username: string, email: string, password: string, role: Role)

  datatype UserRecord = UserRecord(id: Id, createdAt: nat, fields: UserFields)

  function UserId(u: UserRecord): int {
    u.id
  }

  function UserCreatedAt(u: UserRecord): int {
    u.createdAt
  }

  /** The document validators: required strings non-empty, role in the enum. */
  predicate MeetsSchema(f: UserFields) {
    f.username != "" && f.email != "" && f.password != "" && SchemaRole(f.role)
  }

  /** No two users share a username, and no two share an e-mail (compared as stored). */
  ghost predicate UniqueKeys(s: seq<UserRecord>) {
    forall i, j :: 0 <= i < j < |s| ==>
      s[i].fields.username != s[j].fields.username && s[i].fields.email != s[j].fields.email
  }

  /** Whether a new document would collide with a unique index. */
  predicate Collides(s: seq<UserRecord>, f: UserFields) {
    exists i :: 0 <= i < |s| && (s[i].fields.username == f.username || s[i].fields.email == f.email)
  }

  class UserCollection {
    var users: seq<UserRecord>
    var nextId: nat

    ghost predicate Valid()
      reads this
    {
      && Seqs.IncreasingBy(users, UserId)
      && Seqs.IncreasingBy(users, UserCreatedAt)
      && (forall i :: 0 <= i < |users| ==> users[i].id < nextId && users[i].createdAt < nextId)
      && (forall i :: 0 <= i < |users| ==> MeetsSchema(users[i].fields))
      && UniqueKeys(users)
    }

    constructor ()
      ensures Valid() && users == []
    {
      users := [];
      nextId := 0;
    }

    /** `User.create` once validation and the unique indexes have accepted the document. */
    method Insert(f: UserFields) returns (u: UserRecord)
      requires Valid() && MeetsSchema(f) && !Collides(users, f)
      modifies this
      ensures Valid()
      ensures u == UserRecord(old(nextId), old(nextId), f)
      ensures users == old(users) + [u]
    {
      u := UserRecord(nextId, nextId, f);
      users := users + [u];
      nextId := nextId + 1;
    }
  }
}
