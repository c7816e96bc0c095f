/** Values shared by the back end: optional values and errors, the IEEE-double
    outcomes the model has to keep apart, the daily bar of the market-data
    package, and sums over sequences of reals. */
module Common {

  datatype Option<+T> = None | Some(value: T) {
    function GetOr(default: T): T {
      match this
      case Some(v) => v
      case None => default
    }
  }

  /** A computation that either yields a value or fails with a message. */
  datatype Result<+T> = Ok(value: T) | Err(msg: string)

  /** A float64 outcome: a finite value, or one of NaN and the infinities,
      which the model does not tell apart. */
  datatype Float = Finite(val: real) | NotFinite

  function FAdd(a: Float, b: Float): (r: Float)
    ensures r.Finite? <==> a.Finite? && b.Finite?
  {
    if a.Finite? && b.Finite? then Finite(a.val + b.val) else NotFinite
  }

  function FSub(a: Float, b: Float): (r: Float)
    ensures r.Finite? <==> a.Finite? && b.Finite?
  {
    if a.Finite? && b.Finite? then Finite(a.val - b.val) else NotFinite
  }

  function FMul(a: Float, b: Float): (r: Float)
    ensures r.Finite? <==> a.Finite? && b.Finite?
  {
    if a.Finite? && b.Finite? then Finite(a.val * b.val) else NotFinite
  }

  /** IEEE division: a zero divisor gives NaN or an infinity. */
  function FDiv(a: Float, b: Float): (r: Float)
    ensures r.Finite? <==> a.Finite? && b.Finite? && b.val != 0.0
  {
    if a.Finite? && b.Finite? && b.val != 0.0 then Finite(a.val / b.val) else NotFinite
  }

  /** A finite quotient times the divisor gives the dividend back. */
  lemma FDivCancels(a: Float, b: Float)
    ensures FDiv(a, b).Finite? ==> FDiv(a, b).val * b.val == a.val
  {
  }

  /** Dividing bounds of the form d * lo <= s <= d * hi by a positive d. */
  lemma DivWithin(s: real, d: real, lo: real, hi: real)
    requires d > 0.0 && d * lo <= s <= d * hi
    ensures lo <= s / d <= hi
  {
  }

  /** A daily bar as the market-data package stores it. Prices and the
      turnover are counts of thousandths of a yuan; time is Unix seconds. */
  datatype Kline = Kline(time: int, open: int, high: int, low: int, close: int, volume: int, amount: int)

  /** What the back end sees of the data package: the stock codes in their
      order, the daily series of a code between two times (or the error that
      reading it gave), and the display name of a code. */
  datatype Market = Market(
    codes: seq<string>, klines: (string, int, int) -> Result<seq<Kline>>, name: string -> string)

  /** `Price.Float64()`: thousandths of a yuan to yuan. */
  function PriceFloat(p: int): real {
    p as real / 1000.0
  }

  /** The closing prices of a series, in yuan. */
  function Closes(ks: seq<Kline>): (r: seq<real>)
    ensures |r| == |ks|
    ensures forall i :: 0 <= i < |ks| ==> r[i] == PriceFloat(ks[i].close)
  {
    seq(|ks|, i requires 0 <= i < |ks| => PriceFloat(ks[i].close))
  }

  /** xs[lo] + ... + xs[hi-1]. */
  function Sum(xs: seq<real>, lo: int, hi: int): real
    requires 0 <= lo <= hi <= |xs|
    decreases hi - lo
  {
    if lo == hi then 0.0 else Sum(xs, lo, hi - 1) + xs[hi - 1]
  }

  /** Taking the first element off a window. */
  lemma {:induction false} SumDropFirst(xs: seq<real>, lo: int, hi: int)
    requires 0 <= lo < hi <= |xs|
    ensures Sum(xs, lo, hi) == xs[lo] + Sum(xs, lo + 1, hi)
    decreases hi - lo
  {
    if lo + 1 < hi {
      SumDropFirst(xs, lo, hi - 1);
    }
  }

  /** A window's sum lies between its length times its least and its
      greatest element. */
  lemma {:induction false} SumBounds(xs: seq<real>, lo: int, hi: int, a: real, b: real)
    requires 0 <= lo <= hi <= |xs|
    requires forall j :: lo <= j < hi ==> a <= xs[j] <= b
    ensures (hi - lo) as real * a <= Sum(xs, lo, hi) <= (hi - lo) as real * b
    decreases hi - lo
  {
    if lo < hi {
      SumBounds(xs, lo, hi - 1, a, b);
      var m := (hi - 1 - lo) as real;
      assert (hi - lo) as real == m + 1.0;
      assert (m + 1.0) * a == m * a + a && (m + 1.0) * b == m * b + b;
    }
  }

  /** A sum of non-negative terms is non-negative. */
  lemma {:induction false} SumNonNegative(xs: seq<real>, lo: int, hi: int)
    requires 0 <= lo <= hi <= |xs|
    requires forall j :: lo <= j < hi ==> 0.0 <= xs[j]
    ensures 0.0 <= Sum(xs, lo, hi)
    decreases hi - lo
  {
    if lo < hi {
      SumNonNegative(xs, lo, hi - 1);
    }
  }

  /** Real division undoes multiplication by a non-zero divisor. */
  lemma DivMul(w: real, q: real)
    requires q != 0.0
    ensures (w / q) * q == w
  {
  }

  lemma DivUnique(z: real, w: real, q: real)
    requires q != 0.0 && z * q == w
    ensures z == w / q
  {
  }

  /** What the model relies on of `math.Sqrt` / `Math.sqrt`: the root of 0 is
      0 and the root of a positive number is positive. */
  ghost predicate IsSqrt(sqrt: real -> real) {
    sqrt(0.0) == 0.0 && forall x :: 0.0 < x ==> 0.0 < sqrt(x)
  }

  /** `math.Sqrt` on a float64: NaN below 0, and NaN or an infinity stays so. */
  function FSqrt(a: Float, sqrt: real -> real): (r: Float)
    ensures r.Finite? <==> a.Finite? && 0.0 <= a.val
  {
    if a.Finite? && 0.0 <= a.val then Finite(sqrt(a.val)) else NotFinite
  }
}
