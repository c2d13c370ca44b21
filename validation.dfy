/**
 * The validation service: three total validators that decode an unknown value
 * against a schema and report a failure as a `ValidationError` carrying one
 * message.
 */
module Validation {
  import opened Results
  import opened JsValues

  datatype ValidationError = ValidationError(message: string, errors: seq<string>)

  /** The decoded body of a create request. */
  datatype CreateUserData = CreateUserData(name: string, email: string)

  /** The decoded body of an update request; `None` is a field the body leaves out. */
  datatype UpdateUserData = UpdateUserData(name: Option<string>, email: Option<string>)

  const MaxNameLength: nat := 100

  /** The name constraint: `minLength(1)` and `maxLength(100)`. */
  predicate IsName(s: string) {
    1 <= |s| <= MaxNameLength
  }

  /** `\s` in a JavaScript regular expression: the WhiteSpace and LineTerminator code points. */
  predicate IsRegexSpace(c: char)
    ensures IsRegexSpace(c) ==> c != '@' && c != '.'
  {
    || c == '\t' || c == '\n' || c == '\U{000B}' || c == '\U{000C}' || c == '\r' || c == ' '
    || c == '\U{00A0}' || c == '\U{1680}' || '\U{2000}' <= c <= '\U{200A}'
    || c == '\U{2028}' || c == '\U{2029}' || c == '\U{202F}' || c == '\U{205F}'
    || c == '\U{3000}' || c == '\U{FEFF}'
  }

  /** One character of the class `[^\s@]`. */
  predicate IsAddressChar(c: char) {
    !IsRegexSpace(c) && c != '@'
  }

  /** A match of `[^\s@]+`. */
  predicate IsAddressRun(s: string) {
    |s| > 0 && forall i :: 0 <= i < |s| ==> IsAddressChar(s[i])
  }

  /**
   * What it means for `s` to match `^[^\s@]+@[^\s@]+\.[^\s@]+$`: `s` splits as
   * run, `@`, run, `.`, run, where the `@` sits at `at` and the `.` at `dot`.
   */
  ghost predicate MatchesEmailPattern(s: string)
    ensures MatchesEmailPattern(s) ==> |s| >= 5
  {
    exists at, dot ::
      && 0 <= at < dot < |s|
      && s[at] == '@' && s[dot] == '.'
      && IsAddressRun(s[..at]) && IsAddressRun(s[at + 1..dot]) && IsAddressRun(s[dot + 1..])
  }

  function CountOf(s: string, c: char): (n: nat)
    ensures n == 0 <==> forall i :: 0 <= i < |s| ==> s[i] != c
  {
    if s == [] then 0 else (if s[0] == c then 1 else 0) + CountOf(s[1..], c)
  }

  predicate NoSpace(s: string) {
    forall i :: 0 <= i < |s| ==> !IsRegexSpace(s[i])
  }

  /** A `.` that is neither the first nor the last character of `d`. */
  predicate HasInnerDot(d: string) {
    exists k :: 0 < k < |d| - 1 && d[k] == '.'
  }

  /**
   * The email check: exactly one `@`, a non-empty local part before it, no
   * whitespace anywhere, and an inner `.` in the domain after it.
   */
  predicate IsEmail(s: string)
    ensures IsEmail(s) ==> |s| >= 5
  {
    var at := IndexOf(s, '@');
    && 0 < at < |s|
    && CountOf(s, '@') == 1
    && NoSpace(s)
    && HasInnerDot(s[at + 1..])
  }

  lemma {:induction false} CountOfSplit(s: string, i: nat, c: char)
    requires i <= |s|
    ensures CountOf(s, c) == CountOf(s[..i], c) + CountOf(s[i..], c)
  {
    if i > 0 {
      assert s[..i][1..] == s[1..][..i - 1];
      assert s[i..] == s[1..][i - 1..];
      CountOfSplit(s[1..], i - 1, c);
    }
  }

  /** Every string the email check accepts matches the email pattern. */
  lemma EmailCheckSound(s: string)
    requires IsEmail(s)
    ensures MatchesEmailPattern(s)
  {
    var at := IndexOf(s, '@');
    var domain := s[at + 1..];
    var k :| 0 < k < |domain| - 1 && domain[k] == '.';
    var dot := at + 1 + k;
    CountOfSplit(s, at, '@');
    assert s[at..][1..] == domain;
    assert CountOf(domain, '@') == 0;
    assert s[at + 1..dot] == domain[..k];
    assert s[dot + 1..] == domain[k + 1..];
    assert IsAddressRun(s[..at]);
    assert IsAddressRun(s[at + 1..dot]);
    assert IsAddressRun(s[dot + 1..]);
  }

  /** In a pattern match every character but the `@` is a non-space, non-`@` character. */
  lemma PatternCharacters(s: string, at: nat, dot: nat)
    requires 0 <= at < dot < |s| && s[dot] == '.'
    requires IsAddressRun(s[..at]) && IsAddressRun(s[at + 1..dot]) && IsAddressRun(s[dot + 1..])
    ensures forall j :: 0 <= j < |s| && j != at ==> s[j] != '@' && !IsRegexSpace(s[j])
  {
    forall j | 0 <= j < |s| && j != at
      ensures s[j] != '@' && !IsRegexSpace(s[j])
    {
      if j < at {
        assert s[j] == s[..at][j];
      } else if j < dot {
        assert s[j] == s[at + 1..dot][j - at - 1];
      } else if j > dot {
        assert s[j] == s[dot + 1..][j - dot - 1];
      }
    }
  }

  /** A string whose only `c` sits at `at` holds exactly one `c`. */
  lemma CountOfSingle(s: string, at: nat, c: char)
    requires at < |s| && s[at] == c
    requires forall j :: 0 <= j < |s| && j != at ==> s[j] != c
    ensures CountOf(s, c) == 1
  {
    CountOfSplit(s, at, c);
    assert CountOf(s[..at], c) == 0;
    assert CountOf(s[at + 1..], c) == 0;
    assert s[at..][1..] == s[at + 1..];
  }

  /** Every string the email pattern matches passes the email check. */
  lemma EmailCheckComplete(s: string)
    requires MatchesEmailPattern(s)
    ensures IsEmail(s)
  {
    var at, dot :| && 0 <= at < dot < |s| && s[at] == '@' && s[dot] == '.'
                   && IsAddressRun(s[..at]) && IsAddressRun(s[at + 1..dot]) && IsAddressRun(s[dot + 1..]);
    PatternCharacters(s, at, dot);
    assert IndexOf(s, '@') == at;
    CountOfSingle(s, at, '@');
    assert NoSpace(s);
    assert s[at + 1..][dot - at - 1] == '.';
  }

  /** The email check accepts exactly the strings the email pattern matches. */
  lemma EmailCheckIsPattern(s: string)
    ensures IsEmail(s) <==> MatchesEmailPattern(s)
  {
    if IsEmail(s) {
      EmailCheckSound(s);
    }
    if MatchesEmailPattern(s) {
      EmailCheckComplete(s);
    }
  }

  ghost predicate IsNameField(fields: map<string, JsValue>) {
    "name" in fields && fields["name"].Str? && IsName(fields["name"].s)
  }

  ghost predicate IsEmailField(fields: map<string, JsValue>) {
    "email" in fields && fields["email"].Str? && MatchesEmailPattern(fields["email"].s)
  }

  ghost predicate IsOptionalNameField(fields: map<string, JsValue>) {
    "name" in fields ==> fields["name"].Str? && IsName(fields["name"].s)
  }

  ghost predicate IsOptionalEmailField(fields: map<string, JsValue>) {
    "email" in fields ==> fields["email"].Str? && MatchesEmailPattern(fields["email"].s)
  }

  /** The text of `fields[key]`, or a placeholder when it is absent or not a string. */
  function StringAt(fields: map<string, JsValue>, key: string): string {
    if key in fields && fields[key].Str? then fields[key].s else ""
  }

  /** Decoding with `CreateUserSchema`; a failure carries the schema's issue text. */
  function DecodeCreateUser(data: JsValue): (r: Result<CreateUserData, string>)
    ensures r.Ok? <==> data.Obj? && IsNameField(data.fields) && IsEmailField(data.fields)
    ensures r.Ok? ==> r.value == CreateUserData(data.fields["name"].s, data.fields["email"].s)
    ensures r.Err? ==> |r.error| > 0
  {
    EmailCheckIsPattern(if data.Obj? then StringAt(data.fields, "email") else "");
    if !data.Obj? then Err("Expected an object")
    else if !("name" in data.fields && data.fields["name"].Str? && IsName(data.fields["name"].s))
    then Err("name: expected a string of 1 to 100 characters")
    else if !("email" in data.fields && data.fields["email"].Str? && IsEmail(data.fields["email"].s))
    then Err("email: expected a string matching the email pattern")
    else Ok(CreateUserData(data.fields["name"].s, data.fields["email"].s))
  }

  /** Decoding with `UpdateUserSchema`: both fields optional, each checked when present. */
  function DecodeUpdateUser(data: JsValue): (r: Result<UpdateUserData, string>)
    ensures r.Ok? <==> data.Obj? && IsOptionalNameField(data.fields) && IsOptionalEmailField(data.fields)
    ensures r.Ok? ==> r.value.name == (if "name" in data.fields then Some(data.fields["name"].s) else None)
    ensures r.Ok? ==> r.value.email == (if "email" in data.fields then Some(data.fields["email"].s) else None)
    ensures r.Err? ==> |r.error| > 0
  {
    EmailCheckIsPattern(if data.Obj? then StringAt(data.fields, "email") else "");
    if !data.Obj? then Err("Expected an object")
    else if "name" in data.fields && !(data.fields["name"].Str? && IsName(data.fields["name"].s))
    then Err("name: expected a string of 1 to 100 characters")
    else if "email" in data.fields && !(data.fields["email"].Str? && IsEmail(data.fields["email"].s))
    then Err("email: expected a string matching the email pattern")
    else Ok(UpdateUserData(
      if "name" in data.fields then Some(data.fields["name"].s) else None,
      if "email" in data.fields then Some(data.fields["email"].s) else None))
  }

  /** Decoding with `UserIdSchema`: an integer number greater than zero. */
  function DecodeUserId(id: JsValue): (r: Result<int, string>)
    ensures r.Ok? <==> id.Num? && id.n.Finite? && IsInteger(id.n.value) && id.n.value > 0.0
    ensures r.Ok? ==> r.value > 0 && r.value as real == id.n.value
    ensures r.Err? ==> |r.error| > 0
  {
    if !(id.Num? && id.n.Finite?) then Err("Expected a number")
    else if !IsInteger(id.n.value) then Err("Expected an integer")
    else if !(id.n.value > 0.0) then Err("Expected a positive number")
    else Ok(id.n.value.Floor)
  }

  function ValidateCreateUser(data: JsValue): (r: Result<CreateUserData, ValidationError>)
    ensures r.Ok? <==> data.Obj? && IsNameField(data.fields) && IsEmailField(data.fields)
    ensures r.Ok? ==> r.value == CreateUserData(data.fields["name"].s, data.fields["email"].s)
    ensures r.Err? ==> r.error.message == "Invalid user data" && |r.error.errors| == 1
  {
    match DecodeCreateUser(data)
    case Ok(d) => Ok(d)
    case Err(issue) => Err(ValidationError("Invalid user data", [issue]))
  }

  function ValidateUpdateUser(data: JsValue): (r: Result<UpdateUserData, ValidationError>)
    ensures r.Ok? <==> data.Obj? && IsOptionalNameField(data.fields) && IsOptionalEmailField(data.fields)
    ensures r.Ok? ==> r.value.name == (if "name" in data.fields then Some(data.fields["name"].s) else None)
    ensures r.Ok? ==> r.value.email == (if "email" in data.fields then Some(data.fields["email"].s) else None)
    ensures r.Err? ==> r.error.message == "Invalid user update data" && |r.error.errors| == 1
  {
    match DecodeUpdateUser(data)
    case Ok(d) => Ok(d)
    case Err(issue) => Err(ValidationError("Invalid user update data", [issue]))
  }

  function ValidateUserId(id: JsValue): (r: Result<int, ValidationError>)
    ensures r.Ok? <==> id.Num? && id.n.Finite? && IsInteger(id.n.value) && id.n.value > 0.0
    ensures r.Ok? ==> r.value > 0 && r.value as real == id.n.value
    ensures r.Err? ==> r.error.message == "Invalid user ID" && |r.error.errors| == 1
  {
    match DecodeUserId(id)
    case Ok(n) => Ok(n)
    case Err(issue) => Err(ValidationError("Invalid user ID", [issue]))
  }

  /** A name of exactly 100 characters is accepted; an empty one and one of 101 are not. */
  lemma NameLengthBoundary(email: string)
    requires MatchesEmailPattern(email)
    ensures ValidateCreateUser(Obj(map["name" := Str(seq(100, _ => 'a')), "email" := Str(email)])).Ok?
    ensures ValidateCreateUser(Obj(map["name" := Str(""), "email" := Str(email)])).Err?
    ensures ValidateCreateUser(Obj(map["name" := Str(seq(101, _ => 'a')), "email" := Str(email)])).Err?
  {
  }

  lemma ExampleEmails()
    ensures MatchesEmailPattern("test@example.com")
    ensures !MatchesEmailPattern("invalid-email")
  {
    var ok := "test@example.com";
    assert ok[..4] == "test" && ok[5..12] == "example" && ok[13..] == "com";
    assert IsAddressRun(ok[..4]) && IsAddressRun(ok[5..12]) && IsAddressRun(ok[13..]);
    assert ok[4] == '@' && ok[12] == '.' && ok[4 + 1..12] == ok[5..12];
    var bad := "invalid-email";
    assert forall i :: 0 <= i < |bad| ==> bad[i] != '@';
  }

  /** An update body may leave out both fields; the result then changes nothing. */
  lemma EmptyUpdateAccepted()
    ensures ValidateUpdateUser(Obj(map[])) == Ok(UpdateUserData(None, None))
  {
  }
}
