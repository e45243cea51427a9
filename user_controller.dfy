/** The admin views of the user collection: the role counts and the newest-first listing
    without password hashes. */
module UserController {
  import opened Common
  import opened Seqs
  import opened UserModel

  datatype UserStats = UserStats(totalUsers: nat, adminUsers: nat, regularUsers: nat)

  /** A user as `select("-password -__v")` leaves it: every stored path but the hash. */
  datatype ListedUser = ListedUser(id: Id, username: string, email: string, role: Role, createdAt: nat)

  function Listed(u: UserRecord): (l: ListedUser)
    ensures l.id == u.id && l.username == u.fields.username && l.email == u.fields.email
    ensures l.role == u.fields.role && l.createdAt == u.createdAt
  {
    ListedUser(u.id, u.fields.username, u.fields.email, u.fields.role, u.createdAt)
  }

  function ListedCreatedAt(l: ListedUser): int {
    l.createdAt
  }

  function HasRole(r: Role): UserRecord -> bool {
    (u: UserRecord) => u.fields.role == r
  }

  /** `User.countDocuments({ role })`. */
  function CountRole(s: seq<UserRecord>, r: Role): nat {
    |Filter(s, HasRole(r))|
  }

  /** Every user is counted under exactly one role. */
  lemma {:induction false} RolePartition(s: seq<UserRecord>)
    ensures CountRole(s, Admin) + CountRole(s, Manager) + CountRole(s, Client) + CountRole(s, User) == |s|
  {
    if s != [] {
      RolePartition(s[1..]);
      FilterLengthStep(s, HasRole(Admin));
      FilterLengthStep(s, HasRole(Manager));
      FilterLengthStep(s, HasRole(Client));
      FilterLengthStep(s, HasRole(User));
    }
  }

  /** No stored document has the role "user", since the schema's enum refuses it. */
  lemma {:induction false} NoStoredRegularUsers(s: seq<UserRecord>)
    requires forall i :: 0 <= i < |s| ==> MeetsSchema(s[i].fields)
    ensures CountRole(s, User) == 0
  {
    if s != [] {
      assert MeetsSchema(s[0].fields);
      NoStoredRegularUsers(s[1..]);
    }
  }

  /** getUserStats: admin only; the total and the counts of the roles "admin" and "user". */
  method GetUserStats(store: UserCollection, user: Option<Caller>) returns (r: Response<UserStats>)
    ensures (user.None? || !IsAdmin(user.value)) <==> r == Forbidden(AccessDenied)
    ensures !r.Forbidden? ==> r.Ok?
    ensures r.Ok? ==>
      && r.body.totalUsers == |store.users|
      && r.body.adminUsers == CountRole(store.users, Admin)
      && r.body.regularUsers == CountRole(store.users, User)
      && r.body.adminUsers + r.body.regularUsers <= r.body.totalUsers
      && (store.Valid() ==> r.body.regularUsers == 0)
  {
    if user.None? || !IsAdmin(user.value) {
      return Forbidden(AccessDenied);
    }
    var s := store.users;
    RolePartition(s);
    if store.Valid() {
      NoStoredRegularUsers(s);
    }
    r := Ok("", UserStats(|s|, CountRole(s, Admin), CountRole(s, User)));
  }

  /** `User.find().sort({ createdAt: -1 })` without the hashes: the stored users, last
      created first. */
  function NewestFirst(s: seq<UserRecord>): (r: seq<ListedUser>)
    ensures |r| == |s|
    ensures forall i :: 0 <= i < |s| ==> r[i] == Listed(Reverse(s)[i])
  {
    if s == [] then [] else NewestFirst(s[1..]) + [Listed(s[0])]
  }

  /** The listing is ordered by creation time, newest first, when the store is. */
  lemma NewestFirstIsDescending(s: seq<UserRecord>)
    requires IncreasingBy(s, UserCreatedAt)
    ensures DecreasingBy(NewestFirst(s), ListedCreatedAt)
  {
    ReverseOfIncreasing(s, UserCreatedAt);
  }

  /** Every stored user appears in the listing... */
  lemma {:induction false} NewestFirstListsEveryone(s: seq<UserRecord>)
    ensures forall i :: 0 <= i < |s| ==> Listed(s[i]) in NewestFirst(s)
  {
    if s != [] {
      var tail := s[1..];
      NewestFirstListsEveryone(tail);
      var r := NewestFirst(s);
      var t := NewestFirst(tail);
      assert r == t + [Listed(s[0])];
      forall i | 0 <= i < |s|
        ensures Listed(s[i]) in r
      {
        if i == 0 {
          assert r[|t|] == Listed(s[0]);
        } else {
          assert s[i] == tail[i - 1];
          assert Listed(s[i]) in t;
        }
      }
    }
  }

  /** ...and nothing else does. */
  lemma NewestFirstListsOnlyStored(s: seq<UserRecord>)
    ensures forall l :: l in NewestFirst(s) ==> exists i :: 0 <= i < |s| && l == Listed(s[i])
  {
    var r := NewestFirst(s);
    forall l | l in r
      ensures exists i :: 0 <= i < |s| && l == Listed(s[i])
    {
      var k :| 0 <= k < |r| && r[k] == l;
      assert Reverse(s)[k] == s[|s| - 1 - k];
      assert l == Listed(s[|s| - 1 - k]);
    }
  }

  /** getAllUsers: admin only. */
  method GetAllUsers(store: UserCollection, user: Option<Caller>) returns (r: Response<seq<ListedUser>>)
    ensures (user.None? || !IsAdmin(user.value)) <==> r == Forbidden(AccessDenied)
    ensures !r.Forbidden? ==> r.Ok?
    ensures r.Ok? ==>
      && |r.body| == |store.users|
      && (forall i :: 0 <= i < |r.body| ==> r.body[i] == Listed(store.users[|store.users| - 1 - i]))
      && (store.Valid() ==> DecreasingBy(r.body, ListedCreatedAt))
  {
    if user.None? || !IsAdmin(user.value) {
      return Forbidden(AccessDenied);
    }
    var users := NewestFirst(store.users);
    if store.Valid() {
      NewestFirstIsDescending(store.users);
    }
    r := Ok("", users);
  }
}
