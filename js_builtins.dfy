/**
 * The few JavaScript built-ins the application relies on, written out:
 * `String.prototype.trim`, `startsWith`, `includes`, `padStart(2, '0')`, the second
 * field of `split('/')` (found with an `indexOf` helper),
 * `Number.prototype.toString` on whole numbers, and the truthiness and string
 * conversion of the scalar values a JSON body can carry.
 */
module JsBuiltins {
  import opened Wrappers

  /** The characters `trim` removes: ECMAScript WhiteSpace and LineTerminator. */
  predicate IsJsWhitespace(c: char) {
    c == '\t' || c == '\n' || c == '\U{000B}' || c == '\U{000C}' || c == '\r' || c == ' '
    || c == '\U{00A0}' || c == '\U{1680}' || ('\U{2000}' <= c <= '\U{200A}')
    || c == '\U{2028}' || c == '\U{2029}' || c == '\U{202F}' || c == '\U{205F}'
    || c == '\U{3000}' || c == '\U{FEFF}'
  }

  /** Every character of `s` is whitespace (the empty string included). */
  predicate IsBlank(s: string) {
    forall i | 0 <= i < |s| :: IsJsWhitespace(s[i])
  }

  /** `s` without its leading whitespace. */
  function TrimStart(s: string): (r: string)
    ensures |r| <= |s| && r == s[|s| - |r|..]
    ensures forall i | 0 <= i < |s| - |r| :: IsJsWhitespace(s[i])
    ensures r != [] ==> !IsJsWhitespace(r[0])
  {
    if |s| > 0 && IsJsWhitespace(s[0]) then TrimStart(s[1..]) else s
  }

  /** `s` without its trailing whitespace. */
  function TrimEnd(s: string): (r: string)
    ensures |r| <= |s| && r == s[..|r|]
    ensures forall i | |r| <= i < |s| :: IsJsWhitespace(s[i])
    ensures r != [] ==> !IsJsWhitespace(r[|r| - 1])
  {
    if |s| > 0 && IsJsWhitespace(s[|s| - 1]) then TrimEnd(s[..|s| - 1]) else s
  }

  /** `s.trim()`: a slice of `s` that neither starts nor ends with whitespace. */
  function Trim(s: string): (r: string)
    ensures r != [] ==> !IsJsWhitespace(r[0]) && !IsJsWhitespace(r[|r| - 1])
    ensures exists k :: OccursAt(s, r, k)
  {
    var t := TrimStart(s);
    var r := TrimEnd(t);
    assert OccursAt(s, r, |s| - |t|);
    r
  }

  /** `s.trim() === ''` exactly when `s` consists of whitespace only. */
  lemma TrimEmptyIffBlank(s: string)
    ensures Trim(s) == [] <==> IsBlank(s)
  {
    var t := TrimStart(s);
    if t != [] {
      assert !IsJsWhitespace(t[0]);
      assert Trim(s) != [];
    }
    if Trim(s) == [] {
      assert t == [];
    } else {
      var r := Trim(s);
      var k :| OccursAt(s, r, k);
      assert s[k] == r[0];
    }
  }

  /** `s.trim() === ''` as a statement: true exactly for the blank strings. */
  method CheckBlank(s: string) returns (empty: bool)
    ensures empty <==> IsBlank(s)
  {
    TrimEmptyIffBlank(s);
    empty := Trim(s) == "";
  }

  /** `s.startsWith(p)`. */
  predicate StartsWith(s: string, p: string) {
    |p| <= |s| && s[..|p|] == p
  }

  /** `p` occurs in `s` starting at index `i`. */
  predicate OccursAt(s: string, p: string, i: int) {
    0 <= i && i + |p| <= |s| && s[i..i + |p|] == p
  }

  /** `s.includes(p)`. */
  predicate Contains(s: string, p: string) {
    exists i | 0 <= i <= |s| - |p| :: OccursAt(s, p, i)
  }

  /** A string contains each of its prefixes. */
  lemma PrefixContained(p: string, s: string)
    ensures Contains(p + s, p)
  {
    assert OccursAt(p + s, p, 0);
  }

  /** `s.indexOf(c)`, with `None` for JavaScript's -1. */
  function IndexOf(s: string, c: char): (r: Option<nat>)
    ensures r.None? <==> c !in s
    ensures r.Some? ==> r.value < |s| && s[r.value] == c && c !in s[..r.value]
  {
    if |s| == 0 then None
    else if s[0] == c then Some(0)
    else
      match IndexOf(s[1..], c)
      case None => None
      case Some(k) => assert s[1..][..k] == s[1..k + 1]; Some(k + 1)
  }

  /** `s.padStart(2, '0')`: at least two characters, never truncated. */
  function PadStart2(s: string): (r: string)
    ensures |s| >= 2 ==> r == s
    ensures |s| < 2 ==> |r| == 2 && r[2 - |s|..] == s
    ensures forall i | 0 <= i < |r| - |s| :: r[i] == '0'
  {
    if |s| >= 2 then s else if |s| == 1 then "0" + s else "00"
  }

  // ---- decimal numerals ----

  predicate IsDigit(c: char) { '0' <= c <= '9' }

  function DigitChar(d: nat): (c: char)
    requires d < 10
    ensures IsDigit(c) && c as int - '0' as int == d
  {
    ('0' as int + d) as char
  }

  /** The numeral JavaScript prints for the whole number `n >= 0`: digits, no leading zero. */
  function NatToString(n: nat): (r: string)
    ensures |r| >= 1
    ensures forall i | 0 <= i < |r| :: IsDigit(r[i])
    ensures r[0] == '0' ==> n == 0
  {
    if n < 10 then [DigitChar(n)] else NatToString(n / 10) + [DigitChar(n % 10)]
  }

  /** The value of a string of decimal digits. */
  function DigitsValue(s: string): nat
    requires forall i | 0 <= i < |s| :: IsDigit(s[i])
  {
    if s == [] then 0
    else
      var c := s[|s| - 1];
      assert IsDigit(c);
      10 * DigitsValue(s[..|s| - 1]) + (c as int - '0' as int)
  }

  /** Reading back the numeral gives the number. */
  lemma {:induction false} NatToStringRoundTrip(n: nat)
    ensures DigitsValue(NatToString(n)) == n
  {
    if n >= 10 {
      var r := NatToString(n);
      assert r[..|r| - 1] == NatToString(n / 10);
      NatToStringRoundTrip(n / 10);
    }
  }

  /** One digit below ten, two digits from ten to ninety-nine. */
  lemma NatToStringLength(n: nat)
    ensures n < 10 ==> |NatToString(n)| == 1
    ensures 10 <= n < 100 ==> |NatToString(n)| == 2
    ensures n >= 10 ==> |NatToString(n)| >= 2
    ensures n >= 100 ==> |NatToString(n)| >= 3
  {
  }

  /** `String(n)` for a whole number `n`. */
  function IntToString(n: int): (r: string)
    ensures n >= 0 ==> r == NatToString(n)
    ensures n < 0 ==> |r| >= 2 && r[0] == '-' && r[1..] == NatToString(-n)
  {
    if n < 0 then "-" + NatToString(-n) else NatToString(n)
  }

  // ---- JSON scalar values ----

  /** A value a JSON request body can hold in one field (arrays are not modelled). */
  datatype Json = JNull | JBool(b: bool) | JNum(n: int) | JStr(s: string) | JObject

  /** JavaScript truthiness of a JSON value. */
  predicate Truthy(j: Json) {
    match j
    case JNull => false
    case JBool(b) => b
    case JNum(n) => n != 0
    case JStr(s) => s != ""
    case JObject => true
  }

  /** Truthiness of a possibly absent string (`undefined` is falsy). */
  predicate StrTruthy(o: Option<string>) {
    o.Some? && o.value != ""
  }

  /** `s || fallback` for a string `s`. */
  function Or(s: string, fallback: string): (r: string)
    ensures s != "" ==> r == s
    ensures s == "" ==> r == fallback
  {
    if s != "" then s else fallback
  }

  /** `o || fallback` for a possibly absent string `o`. */
  function StrOr(o: Option<string>, fallback: string): (r: string)
    ensures StrTruthy(o) ==> r == o.value
    ensures !StrTruthy(o) ==> r == fallback
  {
    if StrTruthy(o) then o.value else fallback
  }

  /** Truthiness of a possibly absent whole number (`undefined` and 0 are falsy). */
  predicate IntTruthy(o: Option<int>) {
    o.Some? && o.value != 0
  }

  /** `o || fallback` for a possibly absent whole number `o`. */
  function IntOr(o: Option<int>, fallback: int): (r: int)
    ensures IntTruthy(o) ==> r == o.value
    ensures !IntTruthy(o) ==> r == fallback
  {
    if IntTruthy(o) then o.value else fallback
  }

  /** `String(j)`, as a template literal or `new Error(j)` converts it. */
  function ToJsString(j: Json): (r: string)
    ensures j.JStr? ==> r == j.s
    ensures j.JNum? ==> r == IntToString(j.n)
    ensures j.JNull? || j.JBool? || j.JObject? ==> |r| >= 4
  {
    match j
    case JNull => "null"
    case JBool(b) => if b then "true" else "false"
    case JNum(n) => IntToString(n)
    case JStr(s) => s
    case JObject => "[object Object]"
  }
}
