/**
 * The dynamically typed values that flow through the source's dictionaries
 * (configuration trees, memory metadata, step parameters), with Python's
 * truthiness and the `int(...)` conversion used by the configuration manager.
 */
module PyValue {
  import opened Wrappers
  import opened Text

  datatype Value =
    | Null
    | Bool(b: bool)
    | Int(i: int)
    | Float(x: real)
    | Str(s: string)
    | List(items: seq<Value>)
    | Dict(fields: map<string, Value>)

  /** Python's `bool(v)`. */
  predicate Truthy(v: Value)
  {
    match v
    case Null => false
    case Bool(b) => b
    case Int(i) => i != 0
    case Float(x) => x != 0.0
    case Str(s) => s != ""
    case List(xs) => xs != []
    case Dict(m) => m != map[]
  }

  /** `int(x)` for a float: truncation toward zero. */
  function TruncateReal(x: real): (n: int)
    ensures -1.0 < x - n as real < 1.0
    ensures x >= 0.0 ==> 0 <= n && n as real <= x
    ensures x < 0.0 ==> n <= 0 && x <= n as real
  {
    if x >= 0.0 then x.Floor else -((-x).Floor)
  }

  /** The index of the first non-space character at or after `i`. */
  function SkipSpace(s: string, i: nat): (j: nat)
    requires i <= |s|
    ensures i <= j <= |s|
    ensures forall k :: i <= k < j ==> IsSpace(s[k])
    ensures j < |s| ==> !IsSpace(s[j])
    decreases |s| - i
  {
    if i < |s| && IsSpace(s[i]) then SkipSpace(s, i + 1) else i
  }

  /** The index just past the non-space characters of `s`, scanning back from `j`. */
  function TrimEnd(s: string, j: nat): (e: nat)
    requires j <= |s|
    ensures e <= j
    ensures forall k :: e <= k < j ==> IsSpace(s[k])
    ensures e > 0 ==> !IsSpace(s[e - 1])
  {
    if j > 0 && IsSpace(s[j - 1]) then TrimEnd(s, j - 1) else j
  }

  /** `s.strip()`. */
  function Strip(s: string): string
  {
    var i := SkipSpace(s, 0);
    var e := TrimEnd(s, |s|);
    if i <= e then s[i..e] else ""
  }

  /**
   * `int(s)` for a string: surrounding whitespace, an optional sign and at least one
   * ASCII digit; anything else is the ValueError case, `None` here.
   */
  function ParseIntLiteral(s: string): (r: Option<int>)
  {
    var t := Strip(s);
    if t != [] && (t[0] == '-' || t[0] == '+') then
      var d := t[1..];
      if d != [] && AllDigits(d) then Some(if t[0] == '-' then -(DigitsValue(d) as int) else DigitsValue(d)) else None
    else if t != [] && AllDigits(t) then Some(DigitsValue(t))
    else None
  }

  lemma StripOfDigitsOrSign(s: string)
    requires s != [] && forall k :: 0 <= k < |s| ==> !IsSpace(s[k])
    ensures Strip(s) == s
  {
    assert SkipSpace(s, 0) == 0;
    assert TrimEnd(s, |s|) == |s|;
  }

  /** `int(str(i)) == i`: the conversion reads back what Python writes. */
  lemma IntLiteralRoundTrip(i: int)
    ensures ParseIntLiteral(IntToString(i)) == Some(i)
  {
    var s := IntToString(i);
    var n := if i < 0 then -i else i;
    DigitsValueOfNat(n);
    var d := NatToString(n);
    forall k | 0 <= k < |s| ensures !IsSpace(s[k]) {
      if i < 0 { if k > 0 { assert s[k] == d[k - 1]; } }
    }
    StripOfDigitsOrSign(s);
    if i < 0 {
      assert s[1..] == d;
    }
  }

  /** `int(v)` as the configuration manager calls it; `None` is the ValueError/TypeError case. */
  function ToInt(v: Value): (r: Option<int>)
    ensures v.Int? ==> r == Some(v.i)
    ensures v.Null? || v.List? || v.Dict? ==> r == None
  {
    match v
    case Null => None
    case Bool(b) => Some(if b then 1 else 0)
    case Int(i) => Some(i)
    case Float(x) => Some(TruncateReal(x))
    case Str(s) => ParseIntLiteral(s)
    case List(_) => None
    case Dict(_) => None
  }

  /** The number a bool, int or float stands for in Python's `==` (`True == 1 == 1.0`). */
  function NumberOf(v: Value): Option<real>
  {
    match v
    case Bool(b) => Some(if b then 1.0 else 0.0)
    case Int(i) => Some(i as real)
    case Float(x) => Some(x)
    case _ => None
  }

  /** Python's `==`: numbers compare by value across bool, int and float; lists and dicts element by element. */
  predicate PyEq(a: Value, b: Value)
  {
    match a
    case Null => b.Null?
    case Str(s) => b.Str? && b.s == s
    case List(xs) => b.List? && |xs| == |b.items| && forall i :: 0 <= i < |xs| ==> PyEq(xs[i], b.items[i])
    case Dict(m) => b.Dict? && m.Keys == b.fields.Keys && forall k :: k in m ==> PyEq(m[k], b.fields[k])
    case _ => NumberOf(a).Some? && NumberOf(a) == NumberOf(b)
  }

  /** Every value equals itself. */
  lemma {:induction false} PyEqReflexive(v: Value)
    ensures PyEq(v, v)
  {
    match v
    case List(xs) =>
      forall i | 0 <= i < |xs| ensures PyEq(xs[i], xs[i]) {
        PyEqReflexive(xs[i]);
      }
    case Dict(m) =>
      forall k | k in m ensures PyEq(m[k], m[k]) {
        PyEqReflexive(m[k]);
      }
    case _ =>
  }

  /** `True == 1 == 1.0`, while `1 != "1"`. */
  lemma PyEqAcrossNumbers()
    ensures PyEq(Bool(true), Int(1)) && PyEq(Int(1), Float(1.0)) && !PyEq(Int(1), Str("1"))
  {
  }
}
