/**
 * JavaScript values as the front end sees them (JSON bodies, navigation
 * state, objects built by the API client), with the language's truthiness,
 * `||`, `??` and property access.  Numbers are reals; NaN is separate.
 */
module Js {
  import opened Outcomes
  import opened Text

  datatype Value =
    | Undefined
    | Null
    | Bool(b: bool)
    | Num(n: real)
    | NaN
    | Str(s: string)
    | Arr(items: seq<Value>)
    | Obj(fields: map<string, Value>)

  /** JavaScript's truthiness: `undefined`, `null`, `false`, `0`, `NaN` and `""` are falsy. */
  predicate Truthy(v: Value) {
    match v
    case Undefined => false
    case Null => false
    case Bool(b) => b
    case Num(n) => n != 0.0
    case NaN => false
    case Str(s) => s != ""
    case Arr(_) => true
    case Obj(_) => true
  }

  /** `a || b`. */
  function Or(a: Value, b: Value): Value {
    if Truthy(a) then a else b
  }

  /** `a ?? b`. */
  function Coalesce(a: Value, b: Value): Value {
    if a.Undefined? || a.Null? then b else a
  }

  /** `v?.key`: the property when `v` is an object that has it, `undefined` otherwise. */
  function Get(v: Value, key: string): Value {
    if v.Obj? && key in v.fields then v.fields[key] else Undefined
  }

  /** The TypeError V8 raises when a property of `undefined` or `null` is read. */
  function ReadError(v: Value, key: string): string {
    "Cannot read properties of " + (if v.Null? then "null" else "undefined") + " (reading '" + key + "')"
  }

  /** The TypeError V8 raises when something that is not a function is called. */
  function NotAFunction(expression: string): string {
    expression + " is not a function"
  }

  /** `v.key`, which throws a TypeError when `v` is `undefined` or `null`. */
  function Prop(v: Value, key: string): Result<Value, string> {
    if v.Undefined? || v.Null? then Err(ReadError(v, key)) else Ok(Get(v, key))
  }

  /**
   * `items.map(f)` with a callback that may throw: every element in order,
   * and the first throw ends the map with its error.
   */
  function MapAll<T>(items: seq<Value>, f: Value -> Result<T, string>): (r: Result<seq<T>, string>)
    ensures r.Ok? <==> forall k :: 0 <= k < |items| ==> f(items[k]).Ok?
    ensures r.Ok? ==> |r.value| == |items| && forall k :: 0 <= k < |items| ==> r.value[k] == f(items[k]).value
    ensures r.Err? ==> exists k :: 0 <= k < |items| && f(items[k]) == Err(r.error)
                                  && forall j :: 0 <= j < k ==> f(items[j]).Ok?
  {
    if items == [] then Ok([])
    else
      match f(items[0])
      case Err(m) => Err(m)
      case Ok(head) =>
        match MapAll(items[1..], f)
        case Err(m) =>
          var k :| 0 <= k < |items[1..]| && f(items[1..][k]) == Err(m)
                   && forall j :: 0 <= j < k ==> f(items[1..][j]).Ok?;
          assert f(items[k + 1]) == Err(m);
          assert forall j :: 0 <= j < k + 1 ==> f(items[j]).Ok? by {
            forall j | 0 <= j < k + 1 ensures f(items[j]).Ok? {
              if j > 0 { assert items[j] == items[1..][j - 1]; }
            }
          }
          Err(m)
        case Ok(tail) => Ok([head] + tail)
  }

  /** `String(v)`; the decimal formatting of numbers is not modelled (see README). */
  function ToText(v: Value): string
    decreases v, 1
  {
    match v
    case Undefined => "undefined"
    case Null => "null"
    case Bool(b) => if b then "true" else "false"
    case Num(_) => "<number>"
    case NaN => "NaN"
    case Str(s) => s
    case Arr(items) => JoinText(v, items, ",")
    case Obj(_) => "[object Object]"
  }

  /** `items.join(sep)`: `undefined` and `null` elements print as the empty string. */
  function JoinText(ghost whole: Value, items: seq<Value>, sep: string): string
    requires forall i :: 0 <= i < |items| ==> items[i] < whole
    decreases whole, 0, |items|
  {
    if items == [] then ""
    else
      var head := if items[0].Undefined? || items[0].Null? then "" else ToText(items[0]);
      if |items| == 1 then head else head + sep + JoinText(whole, items[1..], sep)
  }

  /** The text one element contributes to a `join`. */
  function JoinPart(v: Value): string {
    if v.Undefined? || v.Null? then "" else ToText(v)
  }

  /** `join` is the string join of the elements' texts. */
  lemma {:induction false} JoinTextIsJoin(whole: Value, items: seq<Value>, sep: string)
    requires forall i :: 0 <= i < |items| ==> items[i] < whole
    ensures JoinText(whole, items, sep) == Join(seq(|items|, i requires 0 <= i < |items| => JoinPart(items[i])), sep)
    decreases |items|
  {
    var parts := seq(|items|, i requires 0 <= i < |items| => JoinPart(items[i]));
    if |items| > 1 {
      JoinTextIsJoin(whole, items[1..], sep);
      assert parts[1..] == seq(|items[1..]|, i requires 0 <= i < |items[1..]| => JoinPart(items[1..][i]));
    }
  }

  // ---------------------------------------------------------------------------
  // parseInt

  /** The value of a digit in bases up to 36; 36 for a character that is no digit. */
  function DigitValue(c: char): (d: nat)
    ensures d <= 36
    ensures '0' <= c <= '9' <==> d < 10
  {
    if '0' <= c <= '9' then c as int - '0' as int
    else if 'a' <= c <= 'z' then c as int - 'a' as int + 10
    else if 'A' <= c <= 'Z' then c as int - 'A' as int + 10
    else 36
  }

  /** How many leading characters of `s` are digits in base `radix`. */
  function DigitRun(s: string, radix: nat): (n: nat)
    ensures n <= |s|
    ensures forall i :: 0 <= i < n ==> DigitValue(s[i]) < radix
    ensures n < |s| ==> DigitValue(s[n]) >= radix
  {
    if s == [] || DigitValue(s[0]) >= radix then 0 else 1 + DigitRun(s[1..], radix)
  }

  /** The number the digits `ds` write in base `radix`, most significant first. */
  function DigitsValue(ds: string, radix: nat): nat {
    if ds == [] then 0 else DigitsValue(ds[..|ds| - 1], radix) * radix + DigitValue(ds[|ds| - 1])
  }

  /**
   * `parseInt(s)` without a radix: leading white space is skipped, then an
   * optional sign, then "0x" or "0X" selects base 16; the longest run of
   * digits that follows is read, and no digit at all gives NaN.
   */
  function ParseInt(s: string): (r: Value)
    ensures r.NaN? || r.Num?
  {
    var t := TrimStart(s);
    var negative := t != [] && t[0] == '-';
    var u := if t != [] && (t[0] == '-' || t[0] == '+') then t[1..] else t;
    var hex := |u| >= 2 && u[0] == '0' && (u[1] == 'x' || u[1] == 'X');
    var radix := if hex then 16 else 10;
    var w := if hex then u[2..] else u;
    var n := DigitRun(w, radix);
    if n == 0 then NaN
    else
      var magnitude: int := DigitsValue(w[..n], radix);
      Num((if negative then -magnitude else magnitude) as real)
  }

  /** The decimal digits of `n` are worth `n`. */
  lemma {:induction false} DecimalValue(n: nat)
    ensures DigitsValue(NatToString(n), 10) == n
    decreases n
  {
    var s := NatToString(n);
    if n >= 10 {
      DecimalValue(n / 10);
      assert s[..|s| - 1] == NatToString(n / 10);
    }
  }

  /** `parseInt` reads back the decimal digits of every natural number. */
  lemma ParseIntDecimal(n: nat)
    ensures ParseInt(NatToString(n)) == Num(n as real)
  {
    ParseIntDigits(NatToString(n));
    DecimalValue(n);
  }

  /** A nonempty run of decimal digits is read whole, in base 10. */
  lemma ParseIntDigits(s: string)
    requires s != [] && forall i :: 0 <= i < |s| ==> '0' <= s[i] <= '9'
    ensures ParseInt(s) == Num(DigitsValue(s, 10) as real)
  {
    assert !IsSpace(s[0]);
    assert TrimStart(s) == s;
    assert !(s[0] == '-' || s[0] == '+');
    assert !(|s| >= 2 && s[0] == '0' && (s[1] == 'x' || s[1] == 'X'));
    var n := DigitRun(s, 10);
    assert n == |s|;
    assert s[..n] == s;
  }

  /** A text that starts with neither white space, a sign nor a digit is not a number. */
  lemma ParseIntNoDigits(s: string)
    requires s != [] && !IsSpace(s[0]) && s[0] != '-' && s[0] != '+' && !('0' <= s[0] <= '9')
    ensures ParseInt(s) == NaN
  {
    assert TrimStart(s) == s;
  }
}
