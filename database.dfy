/**
 * The database service: an in-memory, ordered list of users and the counter
 * that hands out their ids. Every mutating operation logs at info level first.
 */
module Database {
  import opened Results
  import opened JsValues
  import opened Logging

  /** A stored user; `createdAt` is the creation instant in milliseconds since the epoch. */
  datatype User = User(id: int, name: string, email: string, createdAt: nat)

  /** The store's failure; `cause` is an optional underlying value that is never sent to a client. */
  datatype DatabaseError = DatabaseError(message: string, cause: Option<JsValue>)

  /** The input of a create: the `name` and `email` of a user. */
  datatype NewUser = NewUser(name: string, email: string)

  /** The input of an update: each field is either replaced (`Some`) or left as it is (`None`). */
  datatype UserPatch = UserPatch(name: Option<string>, email: Option<string>)

  /** The one failure the store reports: no user has the requested id. */
  function NotFound(id: int): (e: DatabaseError)
    ensures e.cause == None && |e.message| > 23
    ensures e.message[..13] == "User with id " && e.message[|e.message| - 10..] == " not found"
    ensures ToNumber(e.message[13..|e.message| - 10]) == Finite(id as real)
  {
    ToNumberOfDecimal(id);
    assert ("User with id " + IntToDecimal(id) + " not found")[13..13 + |IntToDecimal(id)|] == IntToDecimal(id);
    DatabaseError("User with id " + IntToDecimal(id) + " not found", None)
  }

  /** Ids strictly increase along the list, so the list order is the order of creation. */
  predicate IdsAscending(users: seq<User>) {
    forall i, j :: 0 <= i < j < |users| ==> users[i].id < users[j].id
  }

  /** The position `users.findIndex(u => u.id === id)` reports: the first match, or -1. */
  function IndexOfId(users: seq<User>, id: int): (k: int)
    ensures -1 <= k < |users|
    ensures k >= 0 ==> users[k].id == id && forall j :: 0 <= j < k ==> users[j].id != id
    ensures k == -1 <==> forall j :: 0 <= j < |users| ==> users[j].id != id
  {
    if users == [] then -1
    else if users[0].id == id then 0
    else
      var k := IndexOfId(users[1..], id);
      if k == -1 then -1 else k + 1
  }

  /** The linear search of `findIndex`, left to right. */
  method FindIndex(users: seq<User>, id: int) returns (k: int)
    ensures k == IndexOfId(users, id)
  {
    k := 0;
    while k < |users|
      invariant 0 <= k <= |users|
      invariant forall j :: 0 <= j < k ==> users[j].id != id
    {
      if users[k].id == id {
        return;
      }
      k := k + 1;
    }
    k := -1;
  }

  /** `{ ...user, ...data }`: the fields present in the patch replace the user's. */
  function Merge(u: User, data: UserPatch): (r: User)
    ensures r.id == u.id && r.createdAt == u.createdAt
    ensures data.name.None? ==> r.name == u.name
    ensures data.name.Some? ==> r.name == data.name.value
    ensures data.email.None? ==> r.email == u.email
    ensures data.email.Some? ==> r.email == data.email.value
  {
    User(u.id, data.name.GetOr(u.name), data.email.GetOr(u.email), u.createdAt)
  }

  /** An empty patch changes nothing, and applying a patch twice is applying it once. */
  lemma MergeLaws(u: User, data: UserPatch)
    ensures Merge(u, UserPatch(None, None)) == u
    ensures Merge(Merge(u, data), data) == Merge(u, data)
  {
  }

  lemma AscendingWithout(users: seq<User>, k: nat)
    requires IdsAscending(users) && k < |users|
    ensures IdsAscending(users[..k] + users[k + 1..])
  {
    var rest := users[..k] + users[k + 1..];
    forall i, j | 0 <= i < j < |rest|
      ensures rest[i].id < rest[j].id
    {
      var i' := if i < k then i else i + 1;
      var j' := if j < k then j else j + 1;
      assert rest[i] == users[i'] && rest[j] == users[j'];
    }
  }

  const SeedCreatedAt1: nat := 1704067200000  // 2024-01-01T00:00:00Z
  const SeedCreatedAt2: nat := 1704153600000  // 2024-01-02T00:00:00Z

  class Store {
    /** `mockUsers`: the stored users in creation order. */
    var users: seq<User>
    /** `nextId`: the id the next create hands out. */
    var nextId: int
    /** Every id ever handed out, including those of deleted users. */
    ghost var issued: set<int>
    const logger: Logger

    ghost predicate Valid()
      reads this
      ensures Valid() ==> nextId !in issued
      ensures Valid() ==> forall i, j :: 0 <= i < j < |users| ==> users[i].id != users[j].id
    {
      && 1 <= nextId
      && IdsAscending(users)
      && (forall i :: 0 <= i < |users| ==> users[i].id in issued)
      && (forall x :: x in issued ==> 1 <= x < nextId)
    }

    /** The module's initial state: two seeded users and `nextId = 3`. */
    constructor (logger: Logger)
      ensures Valid() && this.logger == logger
      ensures users == [User(1, "John Doe", "john@example.com", SeedCreatedAt1),
                        User(2, "Jane Smith", "jane@example.com", SeedCreatedAt2)]
      ensures nextId == 3 && issued == {1, 2}
    {
      users := [User(1, "John Doe", "john@example.com", SeedCreatedAt1),
                User(2, "Jane Smith", "jane@example.com", SeedCreatedAt2)];
      nextId := 3;
      issued := {1, 2};
      this.logger := logger;
    }

    predicate Contains(id: int)
      reads this
    {
      exists i :: 0 <= i < |users| && users[i].id == id
    }

    /** `getUsers`: the whole list, in creation order, which is ascending id order. */
    function GetUsers(): (r: seq<User>)
      reads this
      requires Valid()
      ensures r == users
      ensures IdsAscending(r) && forall i :: 0 <= i < |r| ==> 1 <= r[i].id < nextId
    {
      users
    }

    /** `getUserById`: the user with that id, or the not-found failure. */
    function GetUserById(id: int): (r: Result<User, DatabaseError>)
      reads this
      ensures r.Ok? <==> Contains(id)
      ensures r.Ok? ==> r.value in users && r.value.id == id
      ensures r.Err? ==> r.error == NotFound(id)
    {
      var k := IndexOfId(users, id);
      if k < 0 then Err(NotFound(id)) else Ok(users[k])
    }

    /** Ids are unique: looking up the id of a stored user finds that very user. */
    lemma GetUserByIdFindsStored(i: nat)
      requires Valid() && i < |users|
      ensures GetUserById(users[i].id) == Ok(users[i])
    {
    }

    /** `createUser`: a new user with the next id, appended at the end. */
    method CreateUser(data: NewUser, now: nat) returns (u: User)
      requires Valid()
      modifies this, logger
      ensures Valid()
      ensures u == User(old(nextId), data.name, data.email, now)
      ensures users == old(users) + [u] && nextId == old(nextId) + 1
      ensures u.id !in old(issued) && issued == old(issued) + {u.id}
      ensures logger.entries == old(logger.entries) + [Entry(Info, "Creating new user")]
    {
      logger.Log(Info, "Creating new user");
      u := User(nextId, data.name, data.email, now);
      nextId := nextId + 1;
      issued := issued + {u.id};
      users := users + [u];
    }

    /** `updateUser`: merge the patch into the user with that id, in place. */
    method UpdateUser(id: int, data: UserPatch) returns (r: Result<User, DatabaseError>)
      requires Valid()
      modifies this, logger
      ensures Valid() && nextId == old(nextId) && issued == old(issued)
      ensures logger.entries == old(logger.entries) + [Entry(Info, "Updating user")]
      ensures var k := IndexOfId(old(users), id);
        if k < 0 then r == Err(NotFound(id)) && users == old(users)
        else r == Ok(Merge(old(users)[k], data)) && users == old(users)[k := r.value]
    {
      logger.Log(Info, "Updating user");
      var k := FindIndex(users, id);
      if k == -1 {
        return Err(NotFound(id));
      }
      var updated := Merge(users[k], data);
      users := users[k := updated];
      r := Ok(updated);
    }

    /** `deleteUser`: remove the user with that id, keeping the others in order. */
    method DeleteUser(id: int) returns (r: Result<(), DatabaseError>)
      requires Valid()
      modifies this, logger
      ensures Valid() && nextId == old(nextId) && issued == old(issued)
      ensures !Contains(id)
      ensures logger.entries == old(logger.entries) + [Entry(Info, "Deleting user")]
      ensures var k := IndexOfId(old(users), id);
        if k < 0 then r == Err(NotFound(id)) && users == old(users)
        else r == Ok(()) && users == old(users)[..k] + old(users)[k + 1..]
    {
      logger.Log(Info, "Deleting user");
      var k := FindIndex(users, id);
      if k == -1 {
        return Err(NotFound(id));
      }
      AscendingWithout(users, k);
      var rest := users[..k] + users[k + 1..];
      forall j | 0 <= j < |rest|
        ensures rest[j].id != id
      {
        if j < k {
          assert rest[j] == users[j];
        } else {
          assert rest[j] == users[j + 1];
        }
      }
      users := rest;
      r := Ok(());
    }
  }
}
