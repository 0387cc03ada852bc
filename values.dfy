/**
 * The values that flow between test configurations, the execution namespace and
 * the validators, with Python's `str()`, `repr()` and `==` on them.
 */
module Values {
  import opened Wrappers
  import opened Text

  /**
   * A Python value of one of the kinds the notebook grader handles. A dict keeps its
   * entries in insertion order, as Python's dict does.
   */
  datatype Value =
    | PyNone
    | Bool(b: bool)
    | Int(i: int)
    | Float(r: real)
    | Complex(re: real, im: real)
    | Str(s: string)
    | List(items: seq<Value>)
    | Dict(entries: seq<(string, Value)>)

  /** A raised Python exception: its class name and `str(e)`. */
  datatype Exc = Exc(typeName: string, msg: string)

  /** `type(v).__name__`. */
  function TypeName(v: Value): string {
    match v
    case PyNone => "NoneType"
    case Bool(_) => "bool"
    case Int(_) => "int"
    case Float(_) => "float"
    case Complex(_, _) => "complex"
    case Str(_) => "str"
    case List(_) => "list"
    case Dict(_) => "dict"
  }

  /** `isinstance(v, (int, float, complex))`; `bool` is a subclass of `int`. */
  predicate IsNumeric(v: Value) {
    v.Bool? || v.Int? || v.Float? || v.Complex?
  }

  /** `isinstance(v, (int, float))`: a number with no imaginary part. */
  predicate IsRealNumber(v: Value) {
    v.Bool? || v.Int? || v.Float?
  }

  /** Real part of a numeric value (`True` is 1). */
  function RealPart(v: Value): real
    requires IsNumeric(v)
  {
    match v
    case Bool(b) => if b then 1.0 else 0.0
    case Int(i) => i as real
    case Float(r) => r
    case Complex(re, _) => re
  }

  /** Imaginary part of a numeric value. */
  function ImagPart(v: Value): real
    requires IsNumeric(v)
  {
    if v.Complex? then v.im else 0.0
  }

  /** The value stored under `key` in a dict's entries (the last binding wins). */
  function Lookup(entries: seq<(string, Value)>, key: string): (r: Option<Value>)
    ensures r.Some? <==> exists k :: 0 <= k < |entries| && entries[k].0 == key
    ensures r.Some? ==> exists k :: 0 <= k < |entries| && entries[k] == (key, r.value)
  {
    if entries == [] then None
    else
      var last := entries[|entries| - 1];
      if last.0 == key then Some(last.1)
      else
        var r := Lookup(entries[..|entries| - 1], key);
        assert forall k :: 0 <= k < |entries| - 1 ==> entries[..|entries| - 1][k] == entries[k];
        r
  }

  /** Python's `==` on the modelled values: numbers compare by value across types. */
  predicate PyEq(a: Value, b: Value)
    decreases a
  {
    if IsNumeric(a) && IsNumeric(b) then
      RealPart(a) == RealPart(b) && ImagPart(a) == ImagPart(b)
    else
      match a
      case PyNone => b.PyNone?
      case Str(x) => b.Str? && b.s == x
      case List(xs) =>
        b.List? && |xs| == |b.items|
        && forall k :: 0 <= k < |xs| ==> PyEq(xs[k], b.items[k])
      case Dict(xs) =>
        b.Dict? && |xs| == |b.entries|
        && forall k :: 0 <= k < |xs| ==>
             exists m :: 0 <= m < |b.entries| && b.entries[m].0 == xs[k].0 && PyEq(xs[k].1, b.entries[m].1)
      case _ => false
  }

  function Pow10(k: nat): (p: nat)
    ensures p >= 1
  {
    if k == 0 then 1 else 10 * Pow10(k - 1)
  }

  function PadLeft(s: string, n: nat): (r: string)
    ensures |r| >= n
    decreases n - |s|
  {
    if |s| >= n then s else PadLeft("0" + s, n)
  }

  /** Digits `d` with a decimal point inserted `k` places from the right. */
  function PointAt(d: string, k: nat): string {
    var padded := PadLeft(d, k + 1);
    padded[..|padded| - k] + "." + padded[|padded| - k..]
  }

  /** Fixed-point rendering of a non-negative real with the fewest decimals (at most 17). */
  function FixedRepr(r: real, k: nat): string
    requires 0.0 <= r && 1 <= k <= 17
    decreases 17 - k
  {
    var scaled := r * (Pow10(k) as real);
    assert scaled >= 0.0;
    if scaled == scaled.Floor as real || k == 17 then PointAt(NatToString(scaled.Floor), k)
    else FixedRepr(r, k + 1)
  }

  /** `repr(x)` of a float: `12.0`, `0.25`, `-3.5`. */
  function FloatRepr(r: real): string {
    if r < 0.0 then "-" + UnsignedFloatRepr(-r) else UnsignedFloatRepr(r)
  }

  function UnsignedFloatRepr(r: real): string
    requires r >= 0.0
  {
    if r == r.Floor as real then NatToString(r.Floor) + ".0" else FixedRepr(r, 1)
  }

  /** A component of a complex number's repr: integral values lose their `.0`. */
  function ComplexPartRepr(r: real): string {
    if r == r.Floor as real then IntToString(r.Floor) else FloatRepr(r)
  }

  /** `repr(complex(re, im))`: `2j` when the real part is zero, else `(1+2j)`. */
  function ComplexRepr(re: real, im: real): string {
    if re == 0.0 then ComplexPartRepr(im) + "j"
    else "(" + ComplexPartRepr(re) + (if im >= 0.0 then "+" else "") + ComplexPartRepr(im) + "j)"
  }

  /** Python's `repr(v)`. */
  function Repr(v: Value): string
    decreases v
  {
    match v
    case PyNone => "None"
    case Bool(b) => if b then "True" else "False"
    case Int(i) => IntToString(i)
    case Float(r) => FloatRepr(r)
    case Complex(re, im) => ComplexRepr(re, im)
    case Str(s) => "'" + s + "'"
    case List(items) =>
      "[" + Join(seq(|items|, k requires 0 <= k < |items| => Repr(items[k])), ", ") + "]"
    case Dict(entries) =>
      "{" + Join(seq(|entries|, k requires 0 <= k < |entries| =>
                       "'" + entries[k].0 + "': " + Repr(entries[k].1)), ", ") + "}"
  }

  /** Python's `str(v)`: a string is itself, everything else is its repr. */
  function ToStr(v: Value): string {
    if v.Str? then v.s else Repr(v)
  }
}
