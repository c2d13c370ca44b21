/**
 * `runEffect`: how the outcome of a handler becomes an HTTP response. A
 * validation failure is a client error; a store failure and anything else is a
 * server error; a success is sent as JSON, wrapped in `{ data }` unless it is
 * already an object.
 */
module EffectHono {
  import opened Results
  import opened JsValues
  import opened Validation
  import opened Database

  /** The error a handler fails with: one of the two typed errors, or any other error. */
  datatype TypedError =
    | ValidationFailure(validation: ValidationError)
    | DatabaseFailure(database: DatabaseError)
    | OtherFailure(message: string)

  /**
   * How a handler ends: with a value, with a typed failure (`Fail`), or with a
   * cause that is not a plain failure, such as a rejected promise (`Defect`).
   */
  datatype Outcome = Success(value: JsValue) | Fail(error: TypedError) | Defect

  datatype Response = Response(status: nat, body: JsValue)

  function Strings(xs: seq<string>): seq<JsValue> {
    seq(|xs|, i requires 0 <= i < |xs| => Str(xs[i]))
  }

  /** The error a failed outcome is classified by; a non-`Fail` cause becomes a generic error. */
  function ErrorOf(o: Outcome): TypedError
    requires !o.Success?
  {
    if o.Fail? then o.error else OtherFailure("Unknown error")
  }

  function RunEffect(o: Outcome): (r: Response)
    ensures r.status == 200 <==> o.Success?
    ensures r.status == 400 <==> o.Fail? && o.error.ValidationFailure?
    ensures r.status == 500 <==> !o.Success? && !(o.Fail? && o.error.ValidationFailure?)
    ensures o.Success? && IsObject(o.value) ==> r.body == o.value
    ensures o.Success? && !IsObject(o.value) ==> r.body == Obj(map["data" := o.value])
    ensures !o.Success? ==> r.body.Obj? && "error" in r.body.fields
    ensures !o.Success? ==> r.body.fields.Keys <= {"error", "details", "message"}
    ensures o.Fail? && o.error.ValidationFailure? ==>
      r.body == Obj(map["error" := Str("Validation failed"),
                        "details" := Arr(Strings(o.error.validation.errors))])
    ensures o.Fail? && o.error.DatabaseFailure? ==>
      r.body == Obj(map["error" := Str("Database error"),
                        "message" := Str(o.error.database.message)])
    ensures o.Defect? || (o.Fail? && o.error.OtherFailure?) ==>
      r.body == Obj(map["error" := Str("Internal server error")])
  {
    if o.Success? then
      Response(200, if IsObject(o.value) then o.value else Obj(map["data" := o.value]))
    else
      match ErrorOf(o)
      case ValidationFailure(e) =>
        Response(400, Obj(map["error" := Str("Validation failed"), "details" := Arr(Strings(e.errors))]))
      case DatabaseFailure(e) =>
        Response(500, Obj(map["error" := Str("Database error"), "message" := Str(e.message)]))
      case OtherFailure(_) =>
        Response(500, Obj(map["error" := Str("Internal server error")]))
  }

  /** A store failure's `cause` never reaches the response: only its message does. */
  lemma CauseNeverSent(message: string, cause1: Option<JsValue>, cause2: Option<JsValue>)
    ensures RunEffect(Fail(DatabaseFailure(DatabaseError(message, cause1))))
         == RunEffect(Fail(DatabaseFailure(DatabaseError(message, cause2))))
  {
  }

  /** An unknown id is a server error, not a missing resource: 500 with the not-found message. */
  lemma NotFoundIsServerError(id: int)
    ensures RunEffect(Fail(DatabaseFailure(NotFound(id))))
         == Response(500, Obj(map["error" := Str("Database error"),
                                  "message" := Str("User with id " + IntToDecimal(id) + " not found")]))
  {
  }
}
