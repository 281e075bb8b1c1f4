/**
 * The part of JavaScript's value semantics that the orchestrator's handler relies on:
 * values as `JSON.parse` (or the HTTP framework) hands them over, truthiness (`!x`),
 * `typeof x === 'object'`, property reads, the `String(x)` / template-literal coercion,
 * and `String.prototype.trim`.
 */
module JsValue {
  import opened Wrappers

  /** A JavaScript number, as far as the handler tells numbers apart: an integral value
      (`Number.isInteger` holds; `-0` is `Int(0)`), `NaN`, and every other number (a fraction
      or an infinity), which carries the text `String()` renders it as. */
  datatype Num = Int(v: int) | NaN | NonInt(shown: string)

  /** A JavaScript value of the kinds a JSON payload can hold, plus `undefined`. */
  datatype Value =
    | Undefined
    | Null
    | Bool(b: bool)
    | Number(n: Num)
    | Str(s: string)
    | Arr(elems: seq<Value>)
    | Obj(fields: map<string, Value>)

  /** `!!v`: false exactly for undefined, null, false, 0, NaN and the empty string. */
  predicate Truthy(v: Value) {
    match v
    case Undefined => false
    case Null => false
    case Bool(b) => b
    case Number(n) => !(n.NaN? || n == Int(0))
    case Str(s) => s != ""
    case Arr(_) => true
    case Obj(_) => true
  }

  /** `typeof v === 'object'` (null and arrays included). */
  predicate TypeofObject(v: Value) {
    v.Null? || v.Arr? || v.Obj?
  }

  /** `v?.key`: the property's value, or `undefined` when `v` is not an object or lacks the key.
      None of the keys the handler reads is an inherited property of arrays, strings or numbers. */
  function Get(v: Value, key: string): Value {
    if v.Obj? && key in v.fields then v.fields[key] else Undefined
  }

  function DigitChar(d: nat): char
    requires d < 10
  {
    ('0' as int + d) as char
  }

  predicate AllDigits(s: string) {
    forall i | 0 <= i < |s| :: '0' <= s[i] <= '9'
  }

  /** The number a string of decimal digits denotes, most significant digit first. */
  function DecimalValue(s: string): nat
    requires AllDigits(s)
  {
    if s == [] then 0 else DecimalValue(s[..|s| - 1]) * 10 + (s[|s| - 1] as int - '0' as int)
  }

  /** Decimal rendering of a natural number, most significant digit first: at least one digit,
      no leading zero, and the digits denote `n`. */
  function NatToDecimal(n: nat): (r: string)
    ensures |r| >= 1 && AllDigits(r)
    ensures |r| > 1 ==> r[0] != '0'
    ensures DecimalValue(r) == n
  {
    if n < 10 then [DigitChar(n)]
    else
      var r := NatToDecimal(n / 10) + [DigitChar(n % 10)];
      assert r[..|r| - 1] == NatToDecimal(n / 10);
      r
  }

  /** `String(n)` for a number; an integer renders as its sign and decimal digits, with at least
      one digit and no leading zero, which read back as the integer. */
  function NumberToString(n: Num): (r: string)
    ensures n.Int? && n.v >= 0 ==> |r| >= 1 && (|r| > 1 ==> r[0] != '0')
    ensures n.Int? && n.v >= 0 ==> AllDigits(r) && DecimalValue(r) == n.v
    ensures n.Int? && n.v < 0 ==> |r| >= 2 && r[0] == '-' && r[1] != '0'
    ensures n.Int? && n.v < 0 ==> AllDigits(r[1..]) && DecimalValue(r[1..]) == -n.v
  {
    match n
    case Int(v) =>
      if v < 0 then
        var r := "-" + NatToDecimal(-v);
        assert r[1..] == NatToDecimal(-v);
        r
      else NatToDecimal(v)
    case NaN => "NaN"
    case NonInt(shown) => shown
  }

  /** `String(v)`, which is also what `${v}` in a template literal produces; `None` when the
      coercion throws a TypeError. It throws for an object with an own `toString` property: a
      JSON value is never callable, so neither `toString` nor the inherited `valueOf` (which
      returns the object itself) yields a primitive. `join` coerces array elements the same way. */
  function ToJsString(v: Value): (r: Option<string>)
    decreases v
    ensures v.Str? ==> r == Some(v.s)
    ensures r.None? ==> v.Arr? || v.Obj?
    ensures v.Obj? ==> (r.None? <==> "toString" in v.fields)
  {
    match v
    case Undefined => Some("undefined")
    case Null => Some("null")
    case Bool(b) => Some(if b then "true" else "false")
    case Number(n) => Some(NumberToString(n))
    case Str(s) => Some(s)
    case Arr(es) => JoinElems(es)
    case Obj(fields) => if "toString" in fields then None else Some("[object Object]")
  }

  /** `Array.prototype.join(",")`: null and undefined elements render as the empty string, every
      other element as its `String()`, and a coercion that throws makes the join throw. */
  function JoinElems(es: seq<Value>): Option<string>
    decreases es
  {
    if es == [] then Some("")
    else
      var head := if es[0].Undefined? || es[0].Null? then Some("") else ToJsString(es[0]);
      if head.None? then None
      else if |es| == 1 then head
      else
        match JoinElems(es[1..])
        case None => None
        case Some(rest) => Some(head.value + "," + rest)
  }

  /** Whether the join of an element throws. */
  predicate ElementThrows(e: Value) {
    !(e.Undefined? || e.Null?) && ToJsString(e).None?
  }

  /** Joining an array throws exactly when coercing one of its elements throws. */
  lemma {:induction false} JoinThrowsIffElementThrows(es: seq<Value>)
    ensures JoinElems(es).None? <==> exists i | 0 <= i < |es| :: ElementThrows(es[i])
  {
    if es != [] {
      JoinThrowsIffElementThrows(es[1..]);
      if exists i | 0 <= i < |es[1..]| :: ElementThrows(es[1..][i]) {
        var i :| 0 <= i < |es[1..]| && ElementThrows(es[1..][i]);
        assert ElementThrows(es[i + 1]);
      }
      if exists i | 0 <= i < |es| :: ElementThrows(es[i]) {
        var i :| 0 <= i < |es| && ElementThrows(es[i]);
        if i > 0 { assert ElementThrows(es[1..][i - 1]); }
      }
    }
  }

  /** The characters `String.prototype.trim` strips: ECMAScript WhiteSpace and LineTerminator. */
  predicate IsJsWhitespace(c: char) {
    c == '\t' || c == '\n' || c == '\U{B}' || c == '\U{C}' || c == '\r' || c == ' '
    || c == '\U{A0}' || c == '\U{1680}' || ('\U{2000}' <= c <= '\U{200A}')
    || c == '\U{2028}' || c == '\U{2029}' || c == '\U{202F}' || c == '\U{205F}'
    || c == '\U{3000}' || c == '\U{FEFF}'
  }

  /** Drops the leading white space: what remains is a suffix that does not start with white space. */
  function TrimStart(s: string): (r: string)
    ensures |r| <= |s| && r == s[|s| - |r|..]
    ensures forall i | 0 <= i < |s| - |r| :: IsJsWhitespace(s[i])
    ensures r != [] ==> !IsJsWhitespace(r[0])
  {
    if s != [] && IsJsWhitespace(s[0]) then TrimStart(s[1..]) else s
  }

  /** Drops the trailing white space: what remains is a prefix that does not end with white space. */
  function TrimEnd(s: string): (r: string)
    ensures |r| <= |s| && r == s[..|r|]
    ensures forall i | |r| <= i < |s| :: IsJsWhitespace(s[i])
    ensures r != [] ==> !IsJsWhitespace(r[|r| - 1])
  {
    if s != [] && IsJsWhitespace(s[|s| - 1]) then TrimEnd(s[..|s| - 1]) else s
  }

  /** `s.trim()`. */
  function Trim(s: string): string {
    TrimEnd(TrimStart(s))
  }

  /** `!s.trim()` holds exactly when every character of `s` is white space (the empty string included). */
  lemma TrimEmptyIffAllWhitespace(s: string)
    ensures Trim(s) == "" <==> forall i | 0 <= i < |s| :: IsJsWhitespace(s[i])
  {
  }
}
