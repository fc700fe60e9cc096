/** JSON values as the proxy handles them after JSON.parse, together with the
    JavaScript notions the handler relies on: truthiness, property access on a
    parsed value, and the string conversion used by template literals and by
    the Error constructor. */
module JsonValues {

  import opened Wrappers

  /** The integers a JavaScript number holds exactly: magnitude at most
      2^53 - 1 (`Number.MAX_SAFE_INTEGER`). */
  const MaxSafeInteger: int := 0x1F_FFFF_FFFF_FFFF

  type SafeInteger = n: int | -MaxSafeInteger <= n <= MaxSafeInteger

  /** A parsed JSON value. Numbers are safe integers; objects are keyed maps. */
  datatype Json =
    | JNull
    | JBool(b: bool)
    | JNum(n: SafeInteger)
    | JStr(s: string)
    | JArr(items: seq<Json>)
    | JObj(fields: map<string, Json>)

  /** JavaScript truthiness of a JSON value: null, false, 0 and "" are falsy. */
  predicate Truthy(v: Json)
  {
    match v
    case JNull => false
    case JBool(b) => b
    case JNum(n) => n != 0
    case JStr(s) => s != ""
    case JArr(_) => true
    case JObj(_) => true
  }

  /** Truthiness of a value that may be `undefined` (None). */
  predicate Present(v: Option<Json>)
  {
    v.Some? && Truthy(v.value)
  }

  /** Truthiness of an optional string, such as a query parameter. */
  predicate NonEmpty(s: Option<string>)
  {
    s.Some? && s.value != ""
  }

  /** `v.key` on a value that is not null: an own property of an object, and
      `undefined` for every other kind of value. */
  function Get(v: Json, key: string): (r: Option<Json>)
    ensures !v.JObj? ==> r.None?
    ensures r.Some? ==> r.value < v
  {
    if v.JObj? && key in v.fields then Some(v.fields[key]) else None
  }

  /** The decimal digits of a natural number, most significant first. */
  function Digits(n: nat): (r: string)
    ensures |r| >= 1
    ensures forall i :: 0 <= i < |r| ==> '0' <= r[i] <= '9'
    ensures n < 10 <==> |r| == 1
    ensures |r| > 1 ==> r[0] != '0'
  {
    if n < 10 then [DigitChar(n)]
    else
      assert n / 10 < 10 ==> Digits(n / 10) == [DigitChar(n / 10)];
      Digits(n / 10) + [DigitChar(n % 10)]
  }

  function DigitChar(d: nat): (c: char)
    requires d < 10
    ensures '0' <= c <= '9' && c as int - '0' as int == d
  {
    ('0' as int + d) as char
  }

  /** The value a decimal digit string denotes; the inverse of Digits. */
  function DigitsValue(s: string): nat
  {
    if s == [] then 0
    else DigitsValue(s[..|s| - 1]) * 10 + (if '0' <= s[|s| - 1] <= '9' then s[|s| - 1] as int - '0' as int else 0)
  }

  lemma {:induction false} DigitsRoundTrip(n: nat)
    ensures DigitsValue(Digits(n)) == n
  {
    var r := Digits(n);
    if n >= 10 {
      DigitsRoundTrip(n / 10);
      assert r[..|r| - 1] == Digits(n / 10);
    }
  }

  /** `String(n)` for a safe integer: an optional minus sign and the decimal
      digits, which read back as the magnitude. Below 10^21 JavaScript never
      switches to exponent form. */
  function IntToString(n: SafeInteger): (r: string)
    ensures |r| >= 1
    ensures (r[0] == '-') <==> n < 0
    ensures n >= 0 ==> DigitsValue(r) == n
    ensures n < 0 ==> |r| >= 2 && DigitsValue(r[1..]) == -n
    ensures forall i :: (if n < 0 then 1 else 0) <= i < |r| ==> '0' <= r[i] <= '9'
    ensures n >= 0 && |r| > 1 ==> r[0] != '0'
    ensures n < 0 ==> r[1] != '0'
  {
    var magnitude: nat := if n < 0 then -n else n;
    DigitsRoundTrip(magnitude);
    if n < 0 then
      assert ("-" + Digits(magnitude))[1..] == Digits(magnitude);
      "-" + Digits(magnitude)
    else Digits(magnitude)
  }

  /** `String(v)`: the conversion a template literal or the Error constructor
      applies. Arrays join their elements with commas, a null element
      becoming the empty string; every object becomes "[object Object]". */
  function ToJsString(v: Json): (r: string)
    ensures v.JStr? ==> r == v.s
    ensures v.JNum? ==> r == IntToString(v.n)
    ensures v.JNum? && v.n >= 0 ==> DigitsValue(r) == v.n
    ensures v.JNum? && v.n < 0 ==> |r| >= 2 && r[0] == '-' && DigitsValue(r[1..]) == -v.n
    ensures v.JObj? ==> r == "[object Object]"
    ensures v.JArr? && |v.items| == 0 ==> r == ""
    decreases v, 0
  {
    match v
    case JNull => "null"
    case JBool(b) => if b then "true" else "false"
    case JNum(n) => IntToString(n)
    case JStr(s) => s
    case JArr(items) => Join(seq(|items|, i requires 0 <= i < |items| => ElementString(items[i])))
    case JObj(_) => "[object Object]"
  }

  /** How Array.prototype.join renders one element. */
  function ElementString(v: Json): string
    decreases v, 1
  {
    if v.JNull? then "" else ToJsString(v)
  }

  /** The total length of some strings. */
  function TotalLength(parts: seq<string>): nat
  {
    if |parts| == 0 then 0 else TotalLength(parts[..|parts| - 1]) + |parts[|parts| - 1]|
  }

  /** Array.prototype.join with the default separator: the parts in order,
      one comma between each two. */
  function Join(parts: seq<string>): (r: string)
    ensures |parts| > 0 ==> |r| == TotalLength(parts) + |parts| - 1
    ensures |parts| > 0 ==> |r| >= |parts[0]| && r[..|parts[0]|] == parts[0]
    ensures |parts| > 1 ==> |r| > |parts[0]| && r[|parts[0]|] == ','
  {
    if |parts| == 0 then ""
    else if |parts| == 1 then parts[0]
    else Join(parts[..|parts| - 1]) + "," + parts[|parts| - 1]
  }
}
