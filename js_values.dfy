/**
 * JavaScript values as they enter and leave the request pipeline, and the two
 * number/text conversions the pipeline relies on: `Number(text)` for a route
 * parameter and the template-literal rendering `${n}` of an integer.
 */
module JsValues {

  /** A JavaScript number. Only finite values and NaN arise in this model. */
  datatype JsNumber = NaN | Finite(value: real)

  /** A JavaScript value: a decoded JSON body, or a value a handler returns. */
  datatype JsValue =
    | Null
    | Bool(b: bool)
    | Num(n: JsNumber)
    | Str(s: string)
    | Arr(items: seq<JsValue>)
    | Obj(fields: map<string, JsValue>)
    | Date(epochMs: nat)

  /** `typeof v === "object" && v !== null`: plain objects, arrays and Date objects. */
  predicate IsObject(v: JsValue)
    ensures IsObject(v) <==> !(v.Null? || v.Bool? || v.Num? || v.Str?)
  {
    v.Arr? || v.Obj? || v.Date?
  }

  predicate IsInteger(r: real) {
    r.Floor as real == r
  }

  predicate IsDigit(c: char) {
    '0' <= c <= '9'
  }

  predicate AllDigits(s: string) {
    forall i :: 0 <= i < |s| ==> IsDigit(s[i])
  }

  function DigitChar(d: nat): (c: char)
    requires d < 10
    ensures IsDigit(c) && c as int - '0' as int == d
  {
    ('0' as int + d) as char
  }

  /** The value of a run of decimal digits, most significant first. */
  function DigitsValue(s: string): nat
    requires AllDigits(s)
  {
    if s == [] then 0 else DigitsValue(s[..|s| - 1]) * 10 + (s[|s| - 1] as int - '0' as int)
  }

  function Pow10(k: nat): (p: nat)
    ensures p >= 1
  {
    if k == 0 then 1 else 10 * Pow10(k - 1)
  }

  /** The index of the first occurrence of `c` in `s`, or `|s|` when there is none. */
  function IndexOf(s: string, c: char): (i: nat)
    ensures i <= |s|
    ensures i < |s| ==> s[i] == c
    ensures forall j :: 0 <= j < i ==> s[j] != c
  {
    if s == [] then 0 else if s[0] == c then 0 else 1 + IndexOf(s[1..], c)
  }

  /** Decimal text of a natural number: digits only, no leading zero. */
  function NatToDecimal(n: nat): (s: string)
    ensures |s| > 0 && AllDigits(s)
    ensures s[0] == '0' ==> n == 0
  {
    if n < 10 then [DigitChar(n)] else NatToDecimal(n / 10) + [DigitChar(n % 10)]
  }

  /** `${n}` for an integer-valued number: a minus sign, then the digits of |n|. */
  function IntToDecimal(n: int): (s: string)
    ensures |s| > 0 && (s[0] == '-' <==> n < 0)
    ensures n >= 0 ==> AllDigits(s)
    ensures n < 0 ==> |s| > 1 && AllDigits(s[1..]) && s[1] != '0'
  {
    if n < 0 then "-" + NatToDecimal(-n) else NatToDecimal(n)
  }

  /** The value of a fraction's digits: `d1 d2 ... dk` stands for 0.d1d2...dk. */
  function Fraction(ds: string): real
    requires AllDigits(ds)
  {
    DigitsValue(ds) as real / Pow10(|ds|) as real
  }

  /** An unsigned decimal literal: digits, a point, digits, with at least one digit on some side. */
  function UnsignedDecimal(s: string): (n: JsNumber)
    ensures n.Finite? ==> n.value >= 0.0
  {
    var p := IndexOf(s, '.');
    if p == |s| then
      if s != [] && AllDigits(s) then Finite(DigitsValue(s) as real) else NaN
    else
      var whole, frac := s[..p], s[p + 1..];
      if (whole != [] || frac != []) && AllDigits(whole) && AllDigits(frac)
      then Finite(DigitsValue(whole) as real + Fraction(frac))
      else NaN
  }

  /**
   * `Number(s)` for the text a route parameter carries: an optional sign and an
   * unsigned decimal literal; any other text converts to NaN.
   */
  function ToNumber(s: string): (n: JsNumber)
    ensures |s| > 0 && s[0] == '-' ==> n.NaN? || n.value <= 0.0
  {
    if |s| > 0 && s[0] == '-' then
      match UnsignedDecimal(s[1..])
      case NaN => NaN
      case Finite(r) => Finite(-r)
    else if |s| > 0 && s[0] == '+' then UnsignedDecimal(s[1..])
    else UnsignedDecimal(s)
  }

  lemma {:induction false} DigitsValueOfDecimal(n: nat)
    ensures DigitsValue(NatToDecimal(n)) == n
  {
    if n >= 10 {
      var s := NatToDecimal(n);
      var prefix := NatToDecimal(n / 10);
      assert s[..|s| - 1] == prefix;
      DigitsValueOfDecimal(n / 10);
    }
  }

  /** `Number(`${n}`)` gives back n for every integer n. */
  lemma ToNumberOfDecimal(n: int)
    ensures ToNumber(IntToDecimal(n)) == Finite(n as real)
  {
    var m: nat := if n < 0 then -n else n;
    var digits := NatToDecimal(m);
    DigitsValueOfDecimal(m);
    assert !IsDigit('.') && !IsDigit('-') && !IsDigit('+');
    assert IndexOf(digits, '.') == |digits|;
    assert UnsignedDecimal(digits) == Finite(m as real);
    if n < 0 {
      assert IntToDecimal(n)[1..] == digits;
    }
  }
}
