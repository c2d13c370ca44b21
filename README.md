# User CRUD request pipeline — a Dafny model

This project models the request pipeline of a small REST API over `User`
records (an Effect/Hono service). It covers four parts.

- **The in-memory user store** (`src/services/database.ts`) is the class
  `Database.Store`. It holds the ordered user list (`users`), the id counter
  (`nextId`) and a ghost set of every id ever handed out (`issued`). Its
  object invariant `Valid()` says three things: ids strictly increase along
  the list, so list order is creation order; every stored id was issued; and
  every issued id lies in `1 .. nextId-1`. Creates append, updates assign in
  place, deletes splice. Each is a method whose postcondition gives the whole
  new state and the info-level log entry it emits. The two reads are
  functions of the state.
- **Input validation** (`src/services/validation.ts`) is module `Validation`.
  It has the name constraint (1 to 100 characters) and the email pattern
  `^[^\s@]+@[^\s@]+\.[^\s@]+$`. The pattern's meaning is a ghost predicate:
  a split into run, `@`, run, `.`, run. The executable check says: exactly one
  `@`, a non-empty local part, no whitespace, and a `.` inside the domain. A
  lemma proves the two agree in both directions. The three validators state
  exactly which inputs they accept, and that every failure is a
  `ValidationError` with one message.
- **The outcome classifier** (`src/utils/effect-hono.ts`, `runEffect`) is
  `EffectHono.RunEffect`. It is a total function from
  `Outcome = Success(v) | Fail(TypedError) | Defect` to `(status, body)`.
- **The route handlers** (`src/routes/users.ts`) are module `UsersRoutes`.
  GET `/` and GET `/:id` are functions of the store's state. POST, PUT and
  DELETE are methods that drive the store. Each one states its outcome for
  every way its chain can stop. Methods written after the integration tests
  compose handlers, the store and the classifier end to end. Examples: create
  then get, delete then get and delete again, a name-only update, an invalid
  id on every `/:id` route.

Some inputs are parameters of the model. The creation time is a `now: nat`
(milliseconds since the epoch). The request body is a `Body`: either the
parsed JSON value or `Malformed` for a body that does not parse. The route
parameter is its raw text. `Number(text)` and the rendering `${id}` are
modelled in `JsValues`.

Behaviour worth noting:

- The email pattern accepts non-ASCII characters. The regular expression
  excludes only whitespace and `@`, with no ASCII restriction.
- `details` always holds exactly one message, because each validator wraps
  the single text of the schema library's error in a one-element list
  (`src/services/validation.ts:40-42`, `50-52`, `60-62`).
- Decoding stops at the first violated constraint, so a body with several
  faults reports only the first (in the model: the object check, then `name`,
  then `email`).
- A user that is not found is reported as a 500 "Database error", not a 404.

## Model

| member | source | states |
|---|---|---|
| `Logging.Logger.Log` | src/services/logger.ts:18-27 | an emission appends exactly one (level, message) entry and never fails |
| `JsValues.ToNumber` | src/routes/users.ts:29 | `Number(text)` on decimal text; text that starts with `-` never yields a positive number |
| `JsValues.NatToDecimal` | src/services/database.ts:64 | `${n}` is non-empty digits with no leading zero |
| `JsValues.DigitsValueOfDecimal` | src/services/database.ts:64 | reading back the digits of `${n}` gives n |
| `JsValues.IsObject` | src/utils/effect-hono.ts:38 | `typeof v === "object" && v !== null`: true exactly for values that are not null, a boolean, a number or a string |
| `JsValues.IntToDecimal` | src/services/database.ts:64 | `${n}` for an integer: a minus sign exactly when n is negative, then digits with no leading zero |
| `JsValues.ToNumberOfDecimal` | src/routes/users.ts:29 | `Number(`${n}`)` is n for every integer n, so an id printed by the store parses back to itself |
| `Validation.IsRegexSpace` | src/services/validation.ts:21 | `\s` of a JavaScript regular expression: the WhiteSpace and LineTerminator code points; neither `@` nor `.` is one |
| `Validation.MatchesEmailPattern` | src/services/validation.ts:21 | the meaning of `^[^\s@]+@[^\s@]+\.[^\s@]+$`: a split into run, `@`, run, `.`, run of non-space, non-`@` characters; a match has at least 5 characters |
| `Validation.IsEmail` | src/services/validation.ts:21 | the executable email check the decoders run: one `@` after a non-empty local part, no whitespace, an inner `.` after the `@`; an accepted string has at least 5 characters |
| `Validation.EmailCheckSound` | src/services/validation.ts:21 | every string the email check accepts matches the email pattern |
| `Validation.EmailCheckComplete` | src/services/validation.ts:21 | every string the email pattern matches passes the email check |
| `Validation.EmailCheckIsPattern` | src/services/validation.ts:21 | the email check and the pattern accept the same strings |
| `Validation.IsName` | src/services/validation.ts:20 | `minLength(1)` and `maxLength(100)`: a name has 1 to 100 characters |
| `Validation.DecodeCreateUser` | src/services/validation.ts:19-22 | `CreateUserSchema` decodes exactly the objects whose `name` is a string of length 1..100 and whose `email` is a string matching the pattern, yielding those two strings; a failure carries a non-empty issue text |
| `Validation.DecodeUpdateUser` | src/services/validation.ts:24-27 | `UpdateUserSchema` decodes exactly the objects in which each present field meets its create constraint, yielding each present field and marking absent ones absent; a failure carries a non-empty issue text |
| `Validation.DecodeUserId` | src/services/validation.ts:29 | `UserIdSchema` decodes exactly the finite numbers that are integers greater than zero, yielding that number; a failure carries a non-empty issue text |
| `Validation.ValidateCreateUser` | src/services/validation.ts:35-43 | succeeds iff the input is an object whose `name` is a string of length 1..100 and whose `email` is a string matching the pattern; on success returns exactly those two strings; a failure is "Invalid user data" with one message |
| `Validation.ValidateUpdateUser` | src/services/validation.ts:45-53 | succeeds iff the input is an object in which each present field meets its create constraint (absent fields allowed); returns the present fields unchanged and the absent ones as absent; a failure is "Invalid user update data" with one message |
| `Validation.ValidateUserId` | src/services/validation.ts:55-63 | succeeds iff the input is a finite number that is an integer greater than zero, and returns it; a failure is "Invalid user ID" with one message |
| `Validation.NameLengthBoundary` | src/services/validation.ts:20 | a name of length 100 is accepted; lengths 0 and 101 are rejected |
| `Validation.ExampleEmails` | tests/integration/users.test.ts:122-141 | "test@example.com" matches the pattern and "invalid-email" does not |
| `Validation.EmptyUpdateAccepted` | src/services/validation.ts:24-27 | an empty update body is valid and carries no fields |
| `Database.NotFound` | src/services/database.ts:64 | the not-found error has no cause and the message "User with id <id> not found", in which the id text reads back as the id |
| `Database.IndexOfId` | src/services/database.ts:85 | `findIndex`: the first position holding the id, or -1 exactly when no user has it |
| `Database.FindIndex` | src/services/database.ts:97 | the left-to-right search returns the position `findIndex` reports |
| `Database.Merge` | src/services/database.ts:89 | the merged record keeps id and creation time; each present field replaces the old value, each absent one keeps it |
| `Database.MergeLaws` | src/services/database.ts:89-91 | an empty patch is a no-op, and applying a patch twice equals applying it once |
| `Database.AscendingWithout` | src/services/database.ts:101 | removing one entry keeps the ids of the rest in ascending order |
| `Database.Store.Valid` | src/services/database.ts:28-43 | the store invariant: ids ascend along the list, every stored id was issued, every issued id is in `1 .. nextId-1`; hence stored ids are distinct and `nextId` was never issued |
| `Database.Store.constructor` | src/services/database.ts:28-43 | the store starts with users 1 "John Doe" and 2 "Jane Smith", `nextId` 3, and a valid state |
| `Database.Store.GetUsers` | src/services/database.ts:53-57 | returns the whole list, in creation order (ascending ids), with every id below `nextId` |
| `Database.Store.GetUserById` | src/services/database.ts:59-66 | succeeds iff a stored user has the id, and then returns that user; otherwise fails with "User with id <id> not found" |
| `Database.Store.GetUserByIdFindsStored` | src/services/database.ts:62 | ids are unique: looking up a stored user's id returns exactly that user |
| `Database.Store.CreateUser` | src/services/database.ts:69-79 | logs, then appends a user with id = old `nextId` and the given name, email and time; `nextId` grows by one; the new id was never issued before |
| `Database.Store.UpdateUser` | src/services/database.ts:82-92 | logs; a missing id fails not-found and changes nothing; otherwise the record is replaced in place by the merge and every other record is kept |
| `Database.Store.DeleteUser` | src/services/database.ts:94-102 | logs; a missing id fails not-found and changes nothing; otherwise exactly that record is removed and the rest keep their order; no user with the id remains, and `nextId` and the issued ids are kept, so the id is never reused |
| `EffectHono.RunEffect` | src/utils/effect-hono.ts:16-43 | total classification (a cause that is not a typed failure counts as an "Unknown error"): 200 iff success, 400 iff a validation failure, 500 otherwise; the exact body for each failure kind; an object success is sent as-is, any other value wrapped as `{data}` |
| `EffectHono.CauseNeverSent` | src/utils/effect-hono.ts:27-32 | the response to a store failure does not depend on its `cause` |
| `EffectHono.NotFoundIsServerError` | src/utils/effect-hono.ts:27-32 | a not-found store failure becomes 500 "Database error" carrying the not-found message |
| `UsersRoutes.UserValue` | src/routes/users.ts:34 | the user object a handler returns: an object with exactly the keys `id`, `name`, `email` and `createdAt`, so `runEffect` sends it as-is |
| `UsersRoutes.ParseUserId` | src/routes/users.ts:28-29 | the id step accepts exactly the texts whose number is a positive integer, and returns that number |
| `UsersRoutes.CanonicalIdAccepted` | src/routes/users.ts:29 | the decimal text of any positive id is accepted as that id |
| `UsersRoutes.SignedIdRejected` | tests/integration/users.test.ts:76-83 | text with a leading minus sign is rejected |
| `UsersRoutes.NonNumericIdRejected` | tests/integration/users.test.ts:66-74 | "invalid" is rejected |
| `UsersRoutes.ZeroIdRejected` | src/services/validation.ts:29 | "0" is rejected |
| `UsersRoutes.FractionalIdRejected` | src/services/validation.ts:29 | "1.5" is rejected |
| `UsersRoutes.FilteredUpdate` | src/routes/users.ts:67-70 | the PUT filter as the store sees it: a field the validated body leaves out keeps the stored value, a defined field replaces it, and id and creation time never change |
| `UsersRoutes.ListUsers` | src/routes/users.ts:10-20 | GET `/` succeeds with `{users}` listing every stored user in store order |
| `UsersRoutes.GetUser` | src/routes/users.ts:22-36 | an invalid id is a validation failure; a valid id not in the store fails not-found; otherwise `{user}` holds the stored user with that id |
| `UsersRoutes.CreateUserRoute` | src/routes/users.ts:38-52 | a malformed body is a defect and an invalid body a validation failure, both leaving store and log untouched; otherwise two info entries are logged and `{user}` is the appended user with the validated name and email and a fresh id |
| `UsersRoutes.UpdateUserRoute` | src/routes/users.ts:54-77 | checks id, then body parse, then body validation, then the update; each earlier failure leaves store and log untouched; a valid request merges only the fields the body defines |
| `UsersRoutes.DeleteUserRoute` | src/routes/users.ts:79-93 | an invalid id changes nothing; a valid id logs twice, then either fails not-found or removes the user and returns `{message: "User deleted successfully"}` |
| `UsersRoutes.InvalidIdRejected` | tests/integration/users.test.ts:249-264 | an invalid id gives the same 400 "Validation failed" on GET, PUT and DELETE and changes neither store nor log |
| `UsersRoutes.CreateThenGet` | tests/integration/effect-mechanisms.test.ts:217-243 | after a successful POST, a GET of the new id returns the same user, with the posted name and email |
| `UsersRoutes.DeleteThenGet` | tests/integration/users.test.ts:304-333 | deleting a stored user returns the success message; a later GET and a second DELETE of that id both give 500 with the not-found message |
| `UsersRoutes.UpdateNameOnly` | tests/integration/users.test.ts:228-247 | a name-only PUT changes only that user's name; id, email, creation time, position and every other user are kept |

## Left out

- Read-path logging is not modelled. This covers the debug entries of `getUsers` and `getUserById` and the info entries of the two GET routes. The reads are functions of the store state, and these entries carry nothing the model uses.
- The per-request "Initializing database connection" entry is not modelled. The service layer is built once per request, and that is dependency-injection wiring.
- Log metadata and formatting are not modelled: timestamps, JSON rendering and the `console.error` of an unhandled error in `runEffect`. An entry is only a level and a message.
- `JsValues.ToNumber`: covers an optional sign followed by a decimal literal (`12`, `1.5`, `1.`, `.5`). Any other text is NaN. Leading or trailing whitespace, the empty string (0 in JavaScript), exponents, hexadecimal, binary and octal literals (`Number("0b11")` is 3, `Number("0o7")` is 7, so `/api/users/0b1` names user 1 while the model answers 400) and `Infinity` are not modelled.
- `JsValues.ToNumber`: reads decimal text exactly, as a real number, without rounding to the nearest double. Text with more significant digits than a double holds therefore converts differently. For example, JavaScript reads "1.0000000000000001" as 1, so `/api/users/1.0000000000000001` names user 1, while the model rejects that id as not an integer.
- `JsValues.NatToDecimal`: renders integers only. The exponent form JavaScript uses from 1e21 upward is not modelled.
- JSON body parsing is abstracted. A body is either a parsed value or `Malformed`, and a malformed body rejects the promise, which `runEffect` reports as an internal error. There is no `undefined` and no infinite number among the values.
- `Validation.DecodeCreateUser`: the issue text of a failure is this model's own; only its presence is promised. The source forwards the schema library's message, whose wording belongs to that library. Likewise for `DecodeUpdateUser` and `DecodeUserId`.
- `Validation.ValidateCreateUser`: every non-object input fails, arrays included. An array has no `name`, so a create fails either way.
- `Validation.ValidateUpdateUser`: every non-object input fails, arrays included. How the schema library treats an array given to a struct schema is not part of this model. If the library accepted an array, a PUT body `[]` would be an empty update answered with 200; the model answers 400.
- `Validation.IsName`: counts characters. The source counts UTF-16 code units. The two agree on text inside the Basic Multilingual Plane.
- `Validation.DecodeUserId`: accepts every positive integer, and so does `Validation.ValidateUserId`. Any bound the schema library's integer check adds (such as the safe-integer limit) is not part of this model.
- `Database.Store.CreateUser`: returns the user directly. The source's signature allows a `DatabaseError`, but creation never fails.
- `Database.Store.CreateUser`: `nextId` is an unbounded integer. In the source it is a double, so `nextId++` stops growing at 2^53 and would then hand out the same id again; the model's freshness promise does not cover that.
- The store takes integer ids. It is only ever called with ids that passed validation.
- `createdAt` is an opaque count of milliseconds. Its ISO-8601 rendering in the response is not modelled.
- `UsersRoutes.ToPatch`: the filter in the PUT handler drops fields that are `undefined`. A decoded JSON body never holds `undefined`, so in the model the filter copies the present fields.
- Concurrency is not modelled. The JavaScript event loop runs each store call atomically, so the model runs requests one after another. This includes the concurrent-create scenario.
- The unused helpers `parseJson`, `fetchData` and `safeOperation` are not modelled. `fetchData` makes a network call.
- Server startup, signal handling, configuration, health routes and transport middleware are not modelled. They sit outside the request pipeline.
