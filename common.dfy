/**
 * Shared vocabulary of the checkout gateway and its clients: optional values and
 * results, the JSON values that travel in request and response bodies, the
 * JavaScript notion of a "truthy" value that the route handlers branch on, string
 * prefixes, the decimal rendering of integers (`n.toString()`), and the
 * `err.statusCode || 400` rule by which every route turns a thrown error into an
 * HTTP status.
 */
module Common {

  datatype Option<+T> = None | Some(value: T)

  datatype Result<+T, +E> = Ok(value: T) | Err(error: E)

  /** A JSON value as it arrives in an Express request body. Numbers are integers
      (amounts are minor currency units); arrays and objects are only ever tested
      for truthiness or `typeof`, so their contents are not kept. */
  datatype Value = JNull | JBool(b: bool) | JNumber(n: int) | JString(s: string) | JComposite

  /** A parsed request body. A key that is absent reads as `undefined`. */
  type Body = map<string, Value>

  /** JavaScript truthiness: `null`, `false`, `0` and `""` are falsy; every
      array and object is truthy. */
  predicate Truthy(v: Value)
  {
    match v
    case JNull => false
    case JBool(b) => b
    case JNumber(n) => n != 0
    case JString(s) => s != ""
    case JComposite => true
  }

  /** `body.key` read as an optional value: `None` is `undefined`. */
  function Field(body: Body, key: string): (r: Option<Value>)
    ensures r.Some? <==> key in body
    ensures key in body ==> r.value == body[key]
  {
    if key in body then Some(body[key]) else None
  }

  /** Truthiness of a possibly-undefined value (`undefined` is falsy). */
  predicate TruthyField(v: Option<Value>)
  {
    v.Some? && Truthy(v.value)
  }

  /** `typeof body.key === "string"` */
  predicate IsStringField(body: Body, key: string)
  {
    key in body && body[key].JString?
  }

  /** `typeof body.key === "number"` */
  predicate IsNumberField(body: Body, key: string)
  {
    key in body && body[key].JNumber?
  }

  /** A string that is truthy: present and not empty (`x || fallback` keeps it). */
  predicate NonEmpty(s: Option<string>)
  {
    s.Some? && s.value != ""
  }

  /** `s || fallback` for an optional string. */
  function OrElse(s: Option<string>, fallback: string): (r: string)
    ensures NonEmpty(s) ==> r == s.value
    ensures !NonEmpty(s) ==> r == fallback
  {
    if s.Some? && s.value != "" then s.value else fallback
  }

  /** `s.startsWith(prefix)` */
  predicate StartsWith(s: string, prefix: string)
  {
    |prefix| <= |s| && s[..|prefix|] == prefix
  }

  function Min(a: int, b: int): (r: int)
    ensures r <= a && r <= b
    ensures r == a || r == b
  {
    if a <= b then a else b
  }

  function Max(a: int, b: int): (r: int)
    ensures r >= a && r >= b
    ensures r == a || r == b
  {
    if a >= b then a else b
  }

  /** The HTTP status a route answers with for a thrown error:
      `err.statusCode || 400`, where an absent or zero status code is falsy. */
  function StatusOf(statusCode: Option<int>): (r: int)
    ensures r != 0
    ensures statusCode.Some? && statusCode.value != 0 ==> r == statusCode.value
    ensures statusCode.None? || statusCode.value == 0 ==> r == 400
  {
    if statusCode.Some? && statusCode.value != 0 then statusCode.value else 400
  }

  /** The `{error: {code, message}}` body of a rejected request. */
  datatype ApiError = ApiError(code: string, message: string)

  /** The answer of every route whose body validator fails. */
  const InvalidBody: ApiError := ApiError("invalid_body", "Missing or invalid parameters")

  // ---------------------------------------------------------------------------
  // Decimal rendering of integers, as `n.toString()` produces it.

  predicate IsDigit(c: char)
  {
    '0' <= c <= '9'
  }

  predicate AllDigits(s: string)
  {
    forall i :: 0 <= i < |s| ==> IsDigit(s[i])
  }

  function DigitChar(d: nat): (c: char)
    requires d < 10
    ensures IsDigit(c)
  {
    ('0' as int + d) as char
  }

  function DigitValue(c: char): (d: nat)
    requires IsDigit(c)
    ensures d < 10
  {
    c as int - '0' as int
  }

  /** The decimal digits of `n`, most significant first, without leading zeros. */
  function NatToString(n: nat): (s: string)
    ensures 1 <= |s| && AllDigits(s)
    ensures |s| > 1 ==> s[0] != '0'
    decreases n
  {
    if n < 10 then [DigitChar(n)] else NatToString(n / 10) + [DigitChar(n % 10)]
  }

  /** The value of a string of decimal digits. */
  function ParseNat(s: string): nat
    requires AllDigits(s)
  {
    if s == [] then 0 else ParseNat(s[..|s| - 1]) * 10 + DigitValue(s[|s| - 1])
  }

  lemma {:induction false} ParseNatOfNatToString(n: nat)
    ensures ParseNat(NatToString(n)) == n
    decreases n
  {
    var s := NatToString(n);
    if n >= 10 {
      ParseNatOfNatToString(n / 10);
      assert s[..|s| - 1] == NatToString(n / 10);
    }
  }

  /** `n.toString()` for an integer: a minus sign before the digits of a
      negative number. */
  function IntToString(n: int): (s: string)
    ensures 1 <= |s|
  {
    if n < 0 then "-" + NatToString(-n) else NatToString(n)
  }

  /** Reads back what `IntToString` writes; `None` for anything else. */
  function ParseInt(s: string): Option<int>
  {
    if |s| >= 2 && s[0] == '-' && AllDigits(s[1..]) then Some(-(ParseNat(s[1..]) as int))
    else if 1 <= |s| && AllDigits(s) then Some(ParseNat(s))
    else None
  }

  lemma IntToStringRoundTrip(n: int)
    ensures ParseInt(IntToString(n)) == Some(n)
  {
    var s := IntToString(n);
    if n < 0 {
      ParseNatOfNatToString(-n);
      assert s[1..] == NatToString(-n);
    } else {
      ParseNatOfNatToString(n);
      assert !IsDigit('-');
    }
  }

  /** Distinct integers render as distinct strings. */
  lemma IntToStringInjective(a: int, b: int)
    requires IntToString(a) == IntToString(b)
    ensures a == b
  {
    IntToStringRoundTrip(a);
    IntToStringRoundTrip(b);
  }
}
