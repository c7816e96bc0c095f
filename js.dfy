// The JavaScript values the web front end handles, and the few language
// operations its data code leans on: `??`, `||`, truthiness, property
// reads, `Number(...)`, `String(...)` and `Number(x.toFixed(d))`.

module Js {
  import opened Common

  /** A value parsed from JSON, as JavaScript holds it, plus `undefined`. */
  datatype Json =
    | Undefined
    | Null
    | Bool(b: bool)
    | Num(n: real)
    | Str(s: string)
    | Arr(items: seq<Json>)
    | Obj(fields: map<string, Json>)

  /** What a JavaScript call ends in: a value, or a thrown exception. */
  datatype Exception = Error(message: string) | TypeError | RangeError
  datatype Outcome<+T> = Returns(value: T) | Throws(error: Exception)

  /** The operands `??` skips. */
  predicate Nullish(v: Json) {
    v.Undefined? || v.Null?
  }

  /** JavaScript truthiness: `false`, `0`, `""`, `null` and `undefined` are
      falsy, every array and object is truthy. (NaN cannot come out of a
      JSON document.) */
  predicate Truthy(v: Json) {
    match v
    case Undefined => false
    case Null => false
    case Bool(b) => b
    case Num(n) => n != 0.0
    case Str(s) => s != ""
    case _ => true
  }

  /** `v[key]` on a value that is neither null nor undefined (reading a
      property of those throws, and every caller checks for that first).
      Arrays and primitives have none of the property names read here. */
  function Field(v: Json, key: string): (r: Json)
    ensures v.Obj? && key in v.fields ==> r == v.fields[key]
    ensures !(v.Obj? && key in v.fields) ==> r.Undefined?
  {
    if v.Obj? && key in v.fields then v.fields[key] else Undefined
  }

  /** `key in v` for an object `v`. */
  predicate Has(v: Json, key: string) {
    v.Obj? && key in v.fields
  }

  /** `v[k0] ?? v[k1] ?? ... ?? fallback`: the first of the named
      properties that is neither null nor undefined, else the fallback. */
  function FirstDefined(v: Json, keys: seq<string>, fallback: Json): (r: Json)
    ensures (forall j :: 0 <= j < |keys| ==> Nullish(Field(v, keys[j]))) ==> r == fallback
    ensures forall j :: 0 <= j < |keys| && !Nullish(Field(v, keys[j])) &&
                        (forall i :: 0 <= i < j ==> Nullish(Field(v, keys[i]))) ==>
                          r == Field(v, keys[j])
    decreases |keys|
  {
    if |keys| == 0 then fallback
    else if !Nullish(Field(v, keys[0])) then Field(v, keys[0])
    else FirstDefined(v, keys[1..], fallback)
  }

  /** `v[k0] || v[k1] || ... || fallback`: the first of the named
      properties that is truthy, else the fallback. */
  function FirstTruthy(v: Json, keys: seq<string>, fallback: Json): (r: Json)
    ensures (forall j :: 0 <= j < |keys| ==> !Truthy(Field(v, keys[j]))) ==> r == fallback
    ensures forall j :: 0 <= j < |keys| && Truthy(Field(v, keys[j])) &&
                        (forall i :: 0 <= i < j ==> !Truthy(Field(v, keys[i]))) ==>
                          r == Field(v, keys[j])
    decreases |keys|
  {
    if |keys| == 0 then fallback
    else if Truthy(Field(v, keys[0])) then Field(v, keys[0])
    else FirstTruthy(v, keys[1..], fallback)
  }

  /** `Number(v)`. How a string reads as a number is the parameter `text`
      (NotFinite for NaN); an array reads as its one element or, when
      empty, as 0; an object is NaN. */
  function ToNumber(v: Json, text: string -> Float): (r: Float)
    ensures v.Num? ==> r == Finite(v.n)
    ensures v.Null? || v == Arr([]) ==> r == Finite(0.0)
    ensures v.Undefined? || v.Obj? ==> r.NotFinite?
    ensures v.Arr? && 1 < |v.items| ==> r.NotFinite?
  {
    match v
    case Undefined => NotFinite
    case Null => Finite(0.0)
    case Bool(b) => Finite(if b then 1.0 else 0.0)
    case Num(n) => Finite(n)
    case Str(s) => text(s)
    case Obj(_) => NotFinite
    case Arr(items) =>
      if |items| == 0 then Finite(0.0)
      else if 1 < |items| then NotFinite
      else match items[0]
        case Undefined => Finite(0.0)
        case Null => Finite(0.0)
        case Bool(_) => NotFinite
        case x => ToNumber(x, text)
  }

  /** `String(v)`. How a number, an array or an object prints is the
      parameter `show`. */
  function Display(v: Json, show: Json -> string): (r: string)
    ensures v.Str? ==> r == v.s
    ensures v.Undefined? ==> r == "undefined"
    ensures v.Null? ==> r == "null"
  {
    match v
    case Undefined => "undefined"
    case Null => "null"
    case Bool(b) => if b then "true" else "false"
    case Str(s) => s
    case _ => show(v)
  }

  /** `e?.message || fallback`; what the built-in errors say is the
      parameter `builtin`. */
  function ErrorText(e: Exception, fallback: string, builtin: Exception -> string): (r: string)
    ensures r != ""  <== fallback != ""
    ensures e.Error? && e.message != "" ==> r == e.message
    ensures e.Error? && e.message == "" ==> r == fallback
  {
    var m := if e.Error? then e.message else builtin(e);
    if m != "" then m else fallback
  }

  function Pow10(d: nat): (r: nat)
    ensures 1 <= r
  {
    if d == 0 then 1 else 10 * Pow10(d - 1)
  }

  /** The multiple of 1/p nearest to y, the larger one on a tie. */
  function RoundAt(y: real, p: real): real
    requires 0.0 < p
  {
    (y * p + 0.5).Floor as real / p
  }

  /** The multiple of 10^-d nearest to y, the larger one on a tie. */
  function RoundHalfUp(y: real, d: nat): real {
    RoundAt(y, Pow10(d) as real)
  }

  /** `Number(x.toFixed(d))`: x rounded to d decimals, halves away from
      zero; from 1e21 up in size `toFixed` prints x unchanged. */
  function Fixed(x: real, d: nat): real {
    if x <= -1000000000000000000000.0 || 1000000000000000000000.0 <= x then x
    else if x < 0.0 then -RoundHalfUp(-x, d)
    else RoundHalfUp(x, d)
  }

  /** `Number(x.toFixed(d))` on a float64; NaN and the infinities stay so. */
  function FFixed(x: Float, d: nat): (r: Float)
    ensures r.Finite? <==> x.Finite?
    ensures x.Finite? ==> r.val == Fixed(x.val, d)
  {
    if x.Finite? then Finite(Fixed(x.val, d)) else NotFinite
  }

  lemma FloorBounds(a: real)
    ensures a.Floor as real <= a < a.Floor as real + 1.0
  {
  }

  lemma FloorMonotone(a: real, b: real)
    requires a <= b
    ensures a.Floor <= b.Floor
  {
    FloorBounds(a);
    FloorBounds(b);
  }

  lemma ScaleMonotone(a: real, b: real, p: real)
    requires a <= b && 0.0 < p
    ensures a * p <= b * p && a / p <= b / p
  {
  }

  lemma RoundAtMonotone(x: real, y: real, p: real)
    requires x <= y && 0.0 < p
    ensures RoundAt(x, p) <= RoundAt(y, p)
  {
    ScaleMonotone(x, y, p);
    RoundAtScaled(x, y, p);
  }

  lemma RoundAtScaled(x: real, y: real, p: real)
    requires x * p <= y * p && 0.0 < p
    ensures RoundAt(x, p) <= RoundAt(y, p)
  {
    FloorScaleMonotone(x * p + 0.5, y * p + 0.5, p);
  }

  lemma FloorScaleMonotone(u: real, v: real, p: real)
    requires u <= v && 0.0 < p
    ensures u.Floor as real / p <= v.Floor as real / p
  {
    FloorMonotone(u, v);
    ScaleMonotone(u.Floor as real, v.Floor as real, p);
  }

  lemma RoundAtBelow(x: real, p: real, big: real, m: int)
    requires 0.0 <= x < big && 0.0 < p && big * p == m as real
    ensures 0.0 <= RoundAt(x, p) <= big
  {
    ScaleMonotone(0.0, x, p);
    ScaleMonotone(x, big, p);
    var k := FloorBetween(x, p, m);
    ScaleMonotone(0.0, k as real, p);
    ScaleMonotone(k as real, m as real, p);
    DivUnique(big, m as real, p);
  }

  lemma FloorBetween(x: real, p: real, m: int) returns (k: int)
    requires 0.0 < p && 0.0 <= x * p <= m as real
    ensures 0 <= k <= m && RoundAt(x, p) == k as real / p
  {
    FloorBounds(x * p + 0.5);
    k := (x * p + 0.5).Floor;
  }

  lemma RoundAtExact(x: real, p: real, k: int)
    requires 0.0 < p && x * p == k as real
    ensures RoundAt(x, p) == x
  {
    var u := x * p + 0.5;
    assert u == k as real + 0.5;
    FloorBounds(u);
    assert u.Floor == k;
    DivUnique(x, k as real, p);
  }

  /** Rounding with `toFixed` keeps order: the property the chart bands
      and the mock generators rely on. */
  lemma FixedMonotone(x: real, y: real, d: nat)
    requires x <= y
    ensures Fixed(x, d) <= Fixed(y, d)
  {
    var big := 1000000000000000000000.0;
    if x <= -big || big <= y {
      if -big < x < 0.0 {
        RoundAtBelow(-x, Pow10(d) as real, big, 1000000000000000000000 * Pow10(d));
      } else if 0.0 <= x < big {
        RoundAtBelow(x, Pow10(d) as real, big, 1000000000000000000000 * Pow10(d));
      } else if -big < y < 0.0 {
        RoundAtBelow(-y, Pow10(d) as real, big, 1000000000000000000000 * Pow10(d));
      } else if 0.0 <= y < big {
        RoundAtBelow(y, Pow10(d) as real, big, 1000000000000000000000 * Pow10(d));
      }
    } else if x < 0.0 && y < 0.0 {
      RoundAtMonotone(-y, -x, Pow10(d) as real);
    } else if 0.0 <= x {
      RoundAtMonotone(x, y, Pow10(d) as real);
    } else {
      RoundAtBelow(-x, Pow10(d) as real, big, 1000000000000000000000 * Pow10(d));
      RoundAtBelow(y, Pow10(d) as real, big, 1000000000000000000000 * Pow10(d));
    }
  }

  /** `toFixed(d)` moves a number by at most half a unit of the last place. */
  lemma FixedClose(x: real, d: nat)
    ensures x - 0.5 / Pow10(d) as real <= Fixed(x, d) <= x + 0.5 / Pow10(d) as real
  {
    var p := Pow10(d) as real;
    if -1000000000000000000000.0 < x < 1000000000000000000000.0 {
      if x < 0.0 {
        RoundAtClose(-x, p);
      } else {
        RoundAtClose(x, p);
      }
    } else {
      assert 0.0 <= 0.5 / p;
    }
  }

  lemma RoundAtClose(y: real, p: real)
    requires 0.0 < p
    ensures y - 0.5 / p <= RoundAt(y, p) <= y + 0.5 / p
  {
    var u := y * p + 0.5;
    FloorBounds(u);
    ScaleMonotone(u - 1.0, u.Floor as real, p);
    ScaleMonotone(u.Floor as real, u, p);
    ShiftDiv(y, p, 0.5);
    ShiftDiv(y, p, -0.5);
    assert (u - 1.0) / p == (y * p - 0.5) / p;
  }

  lemma ShiftDiv(y: real, p: real, c: real)
    requires 0.0 < p
    ensures (y * p + c) / p == y + c / p
  {
    DivMul(c, p);
    assert (y + c / p) * p == y * p + c;
    DivUnique(y + c / p, y * p + c, p);
  }

  /** `s.filter(keep)`: the entries that pass, in their order. */
  function Filter<T(!new)>(s: seq<T>, keep: T -> bool): (r: seq<T>)
    ensures |r| <= |s|
    ensures forall x :: x in r <==> x in s && keep(x)
    decreases |s|
  {
    if |s| == 0 then []
    else Filter(s[..|s| - 1], keep) + (if keep(s[|s| - 1]) then [s[|s| - 1]] else [])
  }

  /** `a.map((_, i) => i)` for an array of length n. */
  function Indices(n: nat): (r: seq<int>)
    ensures |r| == n && forall i :: 0 <= i < n ==> r[i] == i
  {
    seq(n, i => i)
  }

  /** A multiple of 10^-d is left as it is. */
  lemma FixedExact(x: real, d: nat, k: int)
    requires x * Pow10(d) as real == k as real
    ensures Fixed(x, d) == x
  {
    var p := Pow10(d) as real;
    if x < 0.0 {
      assert -x * p == (-k) as real;
      RoundAtExact(-x, p, -k);
    } else {
      RoundAtExact(x, p, k);
    }
  }
}
