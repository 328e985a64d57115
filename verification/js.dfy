/** The loosely typed JavaScript values the pages read from response bodies
    and records, with the coercions they apply: truthiness, `||`, `??`,
    optional chaining (`a?.b`), `String(v)` and `Number(v)`. */
module Js {
  import opened Wrappers
  import Text

  /** A JSON-like value. Numbers are integers (every number the pages
      inspect is an id, a status or a count). An object keeps its
      properties in key order. */
  datatype Value =
    | Undefined
    | Null
    | Bool(b: bool)
    | Num(n: int)
    | Str(s: string)
    | Arr(items: seq<Value>)
    | Obj(fields: seq<(string, Value)>)

  predicate Truthy(v: Value) {
    match v
    case Undefined => false
    case Null => false
    case Bool(b) => b
    case Num(n) => n != 0
    case Str(s) => s != ""
    case Arr(_) => true
    case Obj(_) => true
  }

  predicate IsNullish(v: Value) {
    v.Undefined? || v.Null?
  }

  /** `a || b`. */
  function Or(a: Value, b: Value): Value {
    if Truthy(a) then a else b
  }

  /** `a ?? b`. */
  function Coalesce(a: Value, b: Value): Value {
    if IsNullish(a) then b else a
  }

  /** `vs[0] || vs[1] || ... || last`: the first truthy value of `vs`,
      or `last` when none is. */
  function FirstTruthy(vs: seq<Value>, last: Value): (r: Value)
    ensures (exists i :: 0 <= i < |vs| && Truthy(vs[i]))
              ==> exists i :: 0 <= i < |vs| && r == vs[i] && Truthy(vs[i])
                     && forall j :: 0 <= j < i ==> !Truthy(vs[j])
    ensures (forall i :: 0 <= i < |vs| ==> !Truthy(vs[i])) ==> r == last
  {
    if |vs| == 0 then last
    else if Truthy(vs[0]) then vs[0]
    else
      var r := FirstTruthy(vs[1..], last);
      assert forall i :: 1 <= i < |vs| ==> vs[i] == vs[1..][i - 1];
      r
  }

  /** The value of property `key` of an object, `undefined` otherwise. */
  function Lookup(fields: seq<(string, Value)>, key: string): (r: Value)
    ensures (forall i :: 0 <= i < |fields| ==> fields[i].0 != key) ==> r == Undefined
    ensures !r.Undefined? ==> exists i :: 0 <= i < |fields| && fields[i] == (key, r)
  {
    if |fields| == 0 then Undefined
    else if fields[0].0 == key then fields[0].1
    else Lookup(fields[1..], key)
  }

  /** `v?.[key]`: a property of an object; `undefined` for anything else,
      which is how optional chaining short-circuits. */
  function Get(v: Value, key: string): Value {
    if v.Obj? then Lookup(v.fields, key) else Undefined
  }

  /** `v?.k1?.k2...`. */
  function Path(v: Value, keys: seq<string>): Value
    decreases |keys|
  {
    if |keys| == 0 then v else Path(Get(v, keys[0]), keys[1..])
  }

  lemma PathOfMissing(keys: seq<string>)
    ensures Path(Undefined, keys) == Undefined
  {
  }

  /** `typeof v === "object"` for a truthy `v` (arrays are objects). */
  predicate IsObjectLike(v: Value) {
    v.Arr? || v.Obj?
  }

  function Join(parts: seq<string>, sep: string): string {
    if |parts| == 0 then ""
    else if |parts| == 1 then parts[0]
    else parts[0] + sep + Join(parts[1..], sep)
  }

  /** `String(v)` (also the `${v}` of a template literal). */
  function ToStr(v: Value): string {
    match v
    case Undefined => "undefined"
    case Null => "null"
    case Bool(b) => if b then "true" else "false"
    case Num(n) => Text.IntToString(n)
    case Str(s) => s
    case Arr(items) =>
      Join(seq(|items|, i requires 0 <= i < |items| =>
                 if IsNullish(items[i]) then "" else ToStr(items[i])), ",")
    case Obj(_) => "[object Object]"
  }

  function DigitValue(c: char): nat
    requires '0' <= c <= '9'
  {
    c as int - '0' as int
  }

  predicate AllDigits(s: string) {
    forall i :: 0 <= i < |s| ==> '0' <= s[i] <= '9'
  }

  /** The value of a non-empty run of decimal digits. */
  function DigitsValue(s: string): nat
    requires AllDigits(s)
  {
    if |s| == 0 then 0 else 10 * DigitsValue(s[..|s| - 1]) + DigitValue(s[|s| - 1])
  }

  /** Reading back a rendered natural number gives the number. */
  lemma {:induction false} DigitsValueOfNatToString(n: nat)
    ensures AllDigits(Text.NatToString(n))
    ensures DigitsValue(Text.NatToString(n)) == n
    decreases n
  {
    var s := Text.NatToString(n);
    if n >= 10 {
      DigitsValueOfNatToString(n / 10);
      assert s[..|s| - 1] == Text.NatToString(n / 10);
    }
  }

  /** Number parsing of an already trimmed string: empty is 0, an optional
      sign followed by decimal digits is that integer, anything else is NaN. */
  function ParseNumber(t: string): Option<int> {
    if t == "" then Some(0)
    else if (t[0] == '-' || t[0] == '+') && |t| > 1 && AllDigits(t[1..]) then
      Some(if t[0] == '-' then -(DigitsValue(t[1..]) as int) else DigitsValue(t[1..]))
    else if AllDigits(t) then Some(DigitsValue(t))
    else None
  }

  /** `Number(v)`, with `None` standing for NaN. Decimal fractions and
      exponents do not occur among integer values and are read as NaN. */
  function ToNumber(v: Value): Option<int> {
    match v
    case Undefined => None
    case Null => Some(0)
    case Bool(b) => Some(if b then 1 else 0)
    case Num(n) => Some(n)
    case Str(s) => ParseNumber(Text.Trim(s))
    case Arr(_) => None
    case Obj(_) => None
  }

  /** A rendered integer has no surrounding whitespace. */
  lemma IntToStringTrimmed(n: int)
    ensures Text.Trim(Text.IntToString(n)) == Text.IntToString(n)
  {
    var s := Text.IntToString(n);
    var digits := Text.NatToString(if n < 0 then -n else n);
    assert s[|s| - 1] == digits[|digits| - 1];
    assert !Text.IsJsSpace(s[0]) && !Text.IsJsSpace(s[|s| - 1]);
    Text.TrimOfTrimmed(s);
  }

  lemma ParseIntToString(n: int)
    ensures ParseNumber(Text.IntToString(n)) == Some(n)
  {
    var s := Text.IntToString(n);
    var m: nat := if n < 0 then -n else n;
    var digits := Text.NatToString(m);
    DigitsValueOfNatToString(m);
    if n < 0 {
      assert s[1..] == digits;
    } else {
      assert s == digits;
    }
  }

  /** `Number(String(n)) === n`: an id sent as a number and the same id
      sent as its decimal string compare equal after `Number()`. */
  lemma NumberOfStringRoundTrip(n: int)
    ensures ToNumber(Str(ToStr(Num(n)))) == Some(n)
  {
    IntToStringTrimmed(n);
    ParseIntToString(n);
  }
}
