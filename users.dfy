/**
 * The user service: a directory of users keyed by id. Listing keeps the
 * active users, lookup is by exact id, and creation refuses empty fields and
 * an email equal to one already stored before it mints the next id.
 * `users_db` becomes the `users` field of `UserDirectory`, the only thing
 * `create_user` changes in place.
 */
module Users {
  import opened Wrappers
  import opened JsonValues
  import opened Tables

  /** One value of `users_db`; `name` and `email` are kept exactly as the client sent them. */
  datatype User = User(id: int, name: Json, email: Json, createdAt: string, active: Option<bool>)

  /** `users_db` is keyed by each user's own `id`. */
  function UserKey(u: User): int {
    u.id
  }

  function UserIds(users: seq<User>): seq<int> {
    KeysOf(users, UserKey)
  }

  /** The three users the service starts with. */
  function SeedUsers(): seq<User> {
    [ User(1, JStr("Juan Perez"), JStr("juan@email.com"), "2025-01-10", Some(true)),
      User(2, JStr("Maria Gonzalez"), JStr("maria@email.com"), "2025-01-12", Some(true)),
      User(3, JStr("Carlos Lopez"), JStr("carlos@email.com"), "2025-01-15", Some(true)) ]
  }

  /** `user.get('active', True)`: a user without the flag counts as active. */
  predicate IsActive(u: User)
    ensures IsActive(u) <==> Truthy(if u.active.Some? then JBool(u.active.value) else JBool(true))
    ensures IsActive(u) <==> u.active != Some(false)
  {
    u.active.None? || u.active.value
  }

  // ---------------------------------------------------------------------------
  // GET /users

  datatype UserListing = UserListing(users: seq<User>, count: nat)

  /** `get_users`: exactly the active users, in insertion order, and their number. */
  function GetUsers(users: seq<User>): (r: UserListing)
    ensures r.count == |r.users|
    ensures Subsequence(r.users, users)
    ensures forall u :: u in r.users <==> u in users && IsActive(u)
    ensures forall u :: multiset(r.users)[u] == if IsActive(u) then multiset(users)[u] else 0
  {
    var active := Filter(users, IsActive);
    UserListing(active, |active|)
  }

  // ---------------------------------------------------------------------------
  // GET /users/<id>

  /** A 404 answer, which echoes the id asked for. */
  datatype NotFound = NotFound(userId: int)

  /** `users_db.get(user_id)`: the user stored under `id`, or a 404 echoing `id`. */
  function GetUser(users: seq<User>, id: int): (r: Result<User, NotFound>)
    ensures r.Success? <==> id in UserIds(users)
    ensures r.Success? ==> r.value in users && r.value.id == id
    ensures r.Failure? ==> r.error == NotFound(id)
  {
    match Find(users, UserKey, id)
    case Some(user) => Success(user)
    case None => Failure(NotFound(id))
  }

  // ---------------------------------------------------------------------------
  // POST /users

  /** Some stored user's email is `==` to `email` (an exact, case-sensitive match on strings). */
  predicate EmailInUse(users: seq<User>, email: Json)
    ensures email.JStr? ==> (EmailInUse(users, email) <==> exists i :: 0 <= i < |users| && users[i].email == email)
    ensures users == [] ==> !EmailInUse(users, email)
  {
    exists i :: 0 <= i < |users| && PyEq(users[i].email, email)
  }

  /** No two stored users have `==` emails. */
  predicate EmailsUnique(users: seq<User>) {
    forall i, j :: 0 <= i < j < |users| ==> !PyEq(users[i].email, users[j].email)
  }

  /** The duplicate check of `create_user`: `for user in users_db.values(): if user['email'] == ...`. */
  method FindEmail(users: seq<User>, email: Json) returns (taken: bool)
    ensures taken <==> EmailInUse(users, email)
  {
    for i := 0 to |users|
      invariant forall j :: 0 <= j < i ==> !PyEq(users[j].email, email)
    {
      if PyEq(users[i].email, email) {
        return true;
      }
    }
    return false;
  }

  /** Adding a user whose email no stored user has keeps the emails unique. */
  lemma InsertKeepsEmailsUnique(users: seq<User>, u: User)
    requires EmailsUnique(users)
    requires !EmailInUse(users, u.email)
    ensures EmailsUnique(users + [u])
  {
  }

  /** The failure answers of `create_user`; `Code` is the HTTP status each one is sent with. */
  datatype CreateUserError =
    | NoData                       // empty or missing body
    | MissingField(field: string)  // `name` or `email` absent or falsy
    | DuplicateEmail               // email already registered
  {
    function Code(): (c: int)
      ensures c == 409 <==> DuplicateEmail?
      ensures c != 409 ==> c == 400
    {
      if DuplicateEmail? then 409 else 400
    }
  }

  /** `data.get(key)` is truthy. */
  predicate Provided(data: map<string, Json>, key: string)
    ensures Provided(data, key) <==> Truthy(GetOr(data, key, JNull))
    ensures key !in data ==> !Provided(data, key)
    ensures key in data && data[key] in {JNull, JBool(false), JStr(""), JNum(0.0)} ==> !Provided(data, key)
  {
    key in data && Truthy(data[key])
  }

  /** The emails of the seed users are matched exactly: a different letter case is a different email. */
  lemma EmailMatchIsCaseSensitive()
    ensures EmailInUse(SeedUsers(), JStr("juan@email.com"))
    ensures !EmailInUse(SeedUsers(), JStr("Juan@email.com"))
  {
    assert PyEq(SeedUsers()[0].email, JStr("juan@email.com"));
  }

  /** With the three seed users, a new email is free and the next id is 4. */
  lemma FirstNewUserScenario()
    ensures !EmailInUse(SeedUsers(), JStr("ana@x.com"))
    ensures NextKey(UserIds(SeedUsers())) == 4
    ensures EmailsUnique(SeedUsers())
  {
  }

  // ---------------------------------------------------------------------------
  // The store

  class UserDirectory {
    /** The values of `users_db`, in insertion order. */
    var users: seq<User>

    ghost predicate Valid()
      reads this
    {
      KeysDistinct(UserIds(users))
    }

    constructor ()
      ensures Valid() && users == SeedUsers()
    {
      users := SeedUsers();
    }

    /**
     * `create_user`: any rejection leaves the directory as it was; a success
     * appends exactly one user, under the next id, active, and keeps stored
     * emails pairwise distinct when they were.
     */
    method CreateUser(data: map<string, Json>, today: string) returns (r: Result<User, CreateUserError>)
      requires Valid()
      modifies this
      ensures Valid()
      ensures r.Failure? ==> users == old(users)
      ensures r == Failure(NoData) <==> |data| == 0
      ensures r == Failure(MissingField("name")) <==> |data| > 0 && !Provided(data, "name")
      ensures r == Failure(MissingField("email")) <==>
        |data| > 0 && Provided(data, "name") && !Provided(data, "email")
      ensures r == Failure(DuplicateEmail) <==>
        |data| > 0 && Provided(data, "name") && Provided(data, "email") && EmailInUse(old(users), data["email"])
      ensures r.Success? <==>
        |data| > 0 && Provided(data, "name") && Provided(data, "email") && !EmailInUse(old(users), data["email"])
      ensures r.Success? ==>
        && r.value == User(NextKey(UserIds(old(users))), data["name"], data["email"], today, Some(true))
        && users == old(users) + [r.value]
        && GetUser(users, r.value.id) == Success(r.value)
      ensures forall id :: GetUser(old(users), id).Success? ==> GetUser(users, id) == GetUser(old(users), id)
      ensures old(EmailsUnique(users)) ==> EmailsUnique(users)
    {
      if |data| == 0 {
        return Failure(NoData);
      }
      if !Provided(data, "name") {
        return Failure(MissingField("name"));
      }
      if !Provided(data, "email") {
        return Failure(MissingField("email"));
      }
      var taken := FindEmail(users, data["email"]);
      if taken {
        return Failure(DuplicateEmail);
      }
      var user := User(NextKey(UserIds(users)), data["name"], data["email"], today, Some(true));
      AppendFreshKey(UserIds(users), user.id);
      assert UserIds(users + [user]) == UserIds(users) + [user.id];
      forall id {
        FindAfterAppend(users, UserKey, user, id);
      }
      if EmailsUnique(users) {
        InsertKeepsEmailsUnique(users, user);
      }
      users := users + [user];
      r := Success(user);
    }
  }
}
