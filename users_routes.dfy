/**
 * The five user routes. Each handler is a chain of steps (convert the id,
 * validate it, read the body, validate it, call the store, shape the result)
 * in which the first failing step decides the outcome. The two read routes are
 * functions of the store's state; the three writing routes are methods that
 * drive the store.
 */
module UsersRoutes {
  import opened Results
  import opened JsValues
  import opened Logging
  import opened Validation
  import opened Database
  import opened EffectHono

  /** What `c.req.json()` produces: the parsed body, or a rejection for malformed JSON. */
  datatype Body = Parsed(value: JsValue) | Malformed

  /** A user as a handler returns it; `createdAt` stays a Date object. */
  function UserValue(u: User): (v: JsValue)
    ensures IsObject(v) && v.Obj? && v.fields.Keys == {"id", "name", "email", "createdAt"}
  {
    Obj(map["id" := Num(Finite(u.id as real)), "name" := Str(u.name), "email" := Str(u.email),
            "createdAt" := Date(u.createdAt)])
  }

  function UserValues(users: seq<User>): seq<JsValue> {
    seq(|users|, i requires 0 <= i < |users| => UserValue(users[i]))
  }

  /** `validateUserId(Number(rawId))`: the first step of GET, PUT and DELETE on `/:id`. */
  function ParseUserId(rawId: string): (r: Result<int, ValidationError>)
    ensures r.Ok? <==> ToNumber(rawId).Finite? && IsInteger(ToNumber(rawId).value) && ToNumber(rawId).value > 0.0
    ensures r.Ok? ==> r.value > 0 && ToNumber(rawId) == Finite(r.value as real)
  {
    ValidateUserId(Num(ToNumber(rawId)))
  }

  /** The decimal text of every positive id is accepted as that id. */
  lemma CanonicalIdAccepted(id: int)
    requires id > 0
    ensures ParseUserId(IntToDecimal(id)) == Ok(id)
  {
    ToNumberOfDecimal(id);
  }

  /** Text with a leading minus sign never names a user. */
  lemma SignedIdRejected(rawId: string)
    requires |rawId| > 0 && rawId[0] == '-'
    ensures ParseUserId(rawId).Err?
  {
  }

  /** Text that is not a number names no user. */
  lemma NonNumericIdRejected()
    ensures ParseUserId("invalid").Err?
  {
    assert "invalid"[0] == 'i' && !IsDigit('i');
    assert IndexOf("invalid", '.') == 7;
  }

  /** Zero is not a positive id. */
  lemma ZeroIdRejected()
    ensures ParseUserId("0").Err?
  {
    assert IndexOf("0", '.') == 1;
    assert DigitsValue("0") == 0;
  }

  /** A number with a non-zero fraction is not an integer id. */
  lemma FractionalIdRejected()
    ensures ParseUserId("1.5").Err?
  {
    var whole, frac := "1.5"[..1], "1.5"[2..];
    assert IndexOf("1.5", '.') == 1;
    assert whole == "1" && frac == "5";
    assert DigitsValue(whole) == 1 && DigitsValue(frac) == 5 && Pow10(|frac|) == 10;
    assert ToNumber("1.5") == Finite(1.5);
  }

  /** The filter at the PUT handler: only the fields the body defines reach the store. */
  function ToPatch(d: UpdateUserData): UserPatch {
    UserPatch(d.name, d.email)
  }

  /**
   * What the filter means for the stored user: a field the body leaves out
   * keeps its stored value, a field it defines replaces it, and id and
   * creation time never change.
   */
  lemma FilteredUpdate(u: User, d: UpdateUserData)
    ensures var m := Merge(u, ToPatch(d));
      && m.id == u.id && m.createdAt == u.createdAt
      && (d.name.None? ==> m.name == u.name) && (d.name.Some? ==> m.name == d.name.value)
      && (d.email.None? ==> m.email == u.email) && (d.email.Some? ==> m.email == d.email.value)
  {
  }

  /** GET `/`: `{ users }` holding every stored user, in store order. */
  function ListUsers(db: Store): (o: Outcome)
    reads db
    requires db.Valid()
    ensures o.Success? && o.value.Obj? && o.value.fields.Keys == {"users"}
    ensures var listed := o.value.fields["users"];
      && listed.Arr? && |listed.items| == |db.users|
      && forall i :: 0 <= i < |db.users| ==> listed.items[i] == UserValue(db.users[i])
  {
    Success(Obj(map["users" := Arr(UserValues(db.GetUsers()))]))
  }

  /** GET `/:id`: the id is checked before the store is consulted. */
  function GetUser(db: Store, rawId: string): (o: Outcome)
    reads db
    ensures ParseUserId(rawId).Err? ==> o == Fail(ValidationFailure(ParseUserId(rawId).error))
    ensures ParseUserId(rawId).Ok? && !db.Contains(ParseUserId(rawId).value) ==>
      o == Fail(DatabaseFailure(NotFound(ParseUserId(rawId).value)))
    ensures o.Success? <==> ParseUserId(rawId).Ok? && db.Contains(ParseUserId(rawId).value)
    ensures o.Success? ==> exists u :: u in db.users && u.id == ParseUserId(rawId).value
                                    && o.value == Obj(map["user" := UserValue(u)])
  {
    match ParseUserId(rawId)
    case Err(e) => Fail(ValidationFailure(e))
    case Ok(id) =>
      match db.GetUserById(id)
      case Err(e) => Fail(DatabaseFailure(e))
      case Ok(u) => Success(Obj(map["user" := UserValue(u)]))
  }

  /** POST `/`: read the body, validate it, log, create. */
  method CreateUserRoute(db: Store, body: Body, now: nat) returns (o: Outcome)
    requires db.Valid()
    modifies db, db.logger
    ensures db.Valid()
    ensures body.Malformed? ==> o == Defect && unchanged(db, db.logger)
    ensures body.Parsed? && ValidateCreateUser(body.value).Err? ==>
      o == Fail(ValidationFailure(ValidateCreateUser(body.value).error)) && unchanged(db, db.logger)
    ensures body.Parsed? && ValidateCreateUser(body.value).Ok? ==>
      var data := ValidateCreateUser(body.value).value;
      var u := User(old(db.nextId), data.name, data.email, now);
      && o == Success(Obj(map["user" := UserValue(u)]))
      && db.users == old(db.users) + [u] && db.nextId == old(db.nextId) + 1
      && u.id !in old(db.issued) && db.issued == old(db.issued) + {u.id}
      && db.logger.entries == old(db.logger.entries) + [Entry(Info, "Creating new user"), Entry(Info, "Creating new user")]
  {
    if body.Malformed? {
      return Defect;
    }
    var checked := ValidateCreateUser(body.value);
    if checked.Err? {
      return Fail(ValidationFailure(checked.error));
    }
    db.logger.Log(Info, "Creating new user");
    var u := db.CreateUser(NewUser(checked.value.name, checked.value.email), now);
    o := Success(Obj(map["user" := UserValue(u)]));
  }

  /** PUT `/:id`: id, then body, then body validation, then the update; the first failure wins. */
  method UpdateUserRoute(db: Store, rawId: string, body: Body) returns (o: Outcome)
    requires db.Valid()
    modifies db, db.logger
    ensures db.Valid() && db.nextId == old(db.nextId) && db.issued == old(db.issued)
    ensures ParseUserId(rawId).Err? ==>
      o == Fail(ValidationFailure(ParseUserId(rawId).error)) && unchanged(db, db.logger)
    ensures ParseUserId(rawId).Ok? && body.Malformed? ==> o == Defect && unchanged(db, db.logger)
    ensures ParseUserId(rawId).Ok? && body.Parsed? && ValidateUpdateUser(body.value).Err? ==>
      o == Fail(ValidationFailure(ValidateUpdateUser(body.value).error)) && unchanged(db, db.logger)
    ensures ParseUserId(rawId).Ok? && body.Parsed? && ValidateUpdateUser(body.value).Ok? ==>
      var id := ParseUserId(rawId).value;
      var patch := ToPatch(ValidateUpdateUser(body.value).value);
      var k := IndexOfId(old(db.users), id);
      && db.logger.entries == old(db.logger.entries) + [Entry(Info, "Updating user"), Entry(Info, "Updating user")]
      && (k < 0 ==> o == Fail(DatabaseFailure(NotFound(id))) && db.users == old(db.users))
      && (k >= 0 ==>
            && o == Success(Obj(map["user" := UserValue(Merge(old(db.users)[k], patch))]))
            && db.users == old(db.users)[k := Merge(old(db.users)[k], patch)])
  {
    var id := ParseUserId(rawId);
    if id.Err? {
      return Fail(ValidationFailure(id.error));
    }
    if body.Malformed? {
      return Defect;
    }
    var checked := ValidateUpdateUser(body.value);
    if checked.Err? {
      return Fail(ValidationFailure(checked.error));
    }
    var patch := ToPatch(checked.value);
    db.logger.Log(Info, "Updating user");
    var updated := db.UpdateUser(id.value, patch);
    match updated
    case Err(e) => o := Fail(DatabaseFailure(e));
    case Ok(u) => o := Success(Obj(map["user" := UserValue(u)]));
  }

  /** DELETE `/:id`: id, then log, then delete. */
  method DeleteUserRoute(db: Store, rawId: string) returns (o: Outcome)
    requires db.Valid()
    modifies db, db.logger
    ensures db.Valid() && db.nextId == old(db.nextId) && db.issued == old(db.issued)
    ensures ParseUserId(rawId).Err? ==>
      o == Fail(ValidationFailure(ParseUserId(rawId).error)) && unchanged(db, db.logger)
    ensures ParseUserId(rawId).Ok? ==>
      var id := ParseUserId(rawId).value;
      var k := IndexOfId(old(db.users), id);
      && !db.Contains(id)
      && db.logger.entries == old(db.logger.entries) + [Entry(Info, "Deleting user"), Entry(Info, "Deleting user")]
      && (k < 0 ==> o == Fail(DatabaseFailure(NotFound(id))) && db.users == old(db.users))
      && (k >= 0 ==>
            && o == Success(Obj(map["message" := Str("User deleted successfully")]))
            && db.users == old(db.users)[..k] + old(db.users)[k + 1..])
  {
    var id := ParseUserId(rawId);
    if id.Err? {
      return Fail(ValidationFailure(id.error));
    }
    db.logger.Log(Info, "Deleting user");
    var deleted := db.DeleteUser(id.value);
    match deleted
    case Err(e) => o := Fail(DatabaseFailure(e));
    case Ok(_) => o := Success(Obj(map["message" := Str("User deleted successfully")]));
  }

  /** An id that is not a positive integer is a 400 on GET, PUT and DELETE, and touches nothing. */
  method InvalidIdRejected(db: Store, rawId: string, body: Body) returns (get: Response, put: Response, del: Response)
    requires db.Valid() && ParseUserId(rawId).Err?
    modifies db, db.logger
    ensures get.status == 400 && put.status == 400 && del.status == 400
    ensures get.body == Obj(map["error" := Str("Validation failed"),
                                "details" := Arr(Strings(ParseUserId(rawId).error.errors))])
    ensures get == put == del
    ensures unchanged(db, db.logger)
  {
    get := RunEffect(GetUser(db, rawId));
    var o := UpdateUserRoute(db, rawId, body);
    put := RunEffect(o);
    o := DeleteUserRoute(db, rawId);
    del := RunEffect(o);
  }

  /** POST a valid user, then GET its id: the stored user comes back with the posted name and email. */
  method CreateThenGet(db: Store, name: string, email: string, now: nat) returns (created: Response, fetched: Response)
    requires db.Valid() && IsName(name) && MatchesEmailPattern(email)
    modifies db, db.logger
    ensures db.Valid()
    ensures created.status == 200 && fetched == created
    ensures fetched.body == Obj(map["user" := UserValue(User(old(db.nextId), name, email, now))])
  {
    var id := db.nextId;
    var o := CreateUserRoute(db, Parsed(Obj(map["name" := Str(name), "email" := Str(email)])), now);
    created := RunEffect(o);
    CanonicalIdAccepted(id);
    db.GetUserByIdFindsStored(|db.users| - 1);
    fetched := RunEffect(GetUser(db, IntToDecimal(id)));
  }

  /** DELETE a stored user, then GET it and DELETE it again: both are the not-found server error. */
  method DeleteThenGet(db: Store, id: int) returns (deleted: Response, fetched: Response, again: Response)
    requires db.Valid() && db.Contains(id)
    modifies db, db.logger
    ensures db.Valid() && !db.Contains(id)
    ensures deleted == Response(200, Obj(map["message" := Str("User deleted successfully")]))
    ensures fetched == Response(500, Obj(map["error" := Str("Database error"),
                                             "message" := Str("User with id " + IntToDecimal(id) + " not found")]))
    ensures again == fetched
  {
    CanonicalIdAccepted(id);
    var o := DeleteUserRoute(db, IntToDecimal(id));
    deleted := RunEffect(o);
    fetched := RunEffect(GetUser(db, IntToDecimal(id)));
    o := DeleteUserRoute(db, IntToDecimal(id));
    again := RunEffect(o);
  }

  /** PUT a name only: the user keeps its id, email, creation time and position. */
  method UpdateNameOnly(db: Store, i: nat, name: string) returns (resp: Response)
    requires db.Valid() && i < |db.users| && IsName(name)
    modifies db, db.logger
    ensures db.Valid() && |db.users| == |old(db.users)|
    ensures db.users[i] == old(db.users[i]).(name := name)
    ensures forall j :: 0 <= j < |db.users| && j != i ==> db.users[j] == old(db.users[j])
    ensures resp == Response(200, Obj(map["user" := UserValue(db.users[i])]))
  {
    CanonicalIdAccepted(db.users[i].id);
    db.GetUserByIdFindsStored(i);
    var o := UpdateUserRoute(db, IntToDecimal(db.users[i].id), Parsed(Obj(map["name" := Str(name)])));
    resp := RunEffect(o);
  }
}
