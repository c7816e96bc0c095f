/** The candlestick chart of one code: moving averages and Bollinger bands
    over the closes, buy and sell markers from a back test, the return line,
    volume bars and the tooltip's 万/亿 labels. */
module PriceChart {
  import opened Common
  import opened Js
  import ReturnsChart

  /** A candle as the chart receives it, prices in yuan; `Volume` and
      `Amount` are numbers when present. */
  datatype Candle = Candle(time: string, open: real, high: real, low: real, close: real,
                           volume: Option<real>, amount: Option<real>)

  /** A trade marker: the bar it happened on and its side. */
  datatype Mark = Mark(index: int, side: string)

  function ClosesOf(candles: seq<Candle>): (r: seq<real>)
    ensures |r| == |candles| && forall i :: 0 <= i < |candles| ==> r[i] == candles[i].close
  {
    seq(|candles|, i requires 0 <= i < |candles| => candles[i].close)
  }

  // ---------------------------------------------------------------------
  // Moving average.

  /** Entry i of `sma(n)`: NaN until a full window exists, then the mean of
      the n closes ending at i, to four decimals. */
  function SmaAt(closes: seq<real>, n: int, i: int): Float
    requires 0 < n && 0 <= i < |closes|
  {
    if i < n - 1 then NotFinite else Finite(Fixed(Sum(closes, i - n + 1, i + 1) / n as real, 4))
  }

  function SmaLine(closes: seq<real>, n: int): (r: seq<Float>)
    requires 0 < n
    ensures |r| == |closes|
    ensures forall i :: 0 <= i < |closes| ==> r[i] == SmaAt(closes, n, i)
  {
    seq(|closes|, i requires 0 <= i < |closes| => SmaAt(closes, n, i))
  }

  /** Where the running window of `sma` and `boll` starts after i closes
      have been taken in. */
  function WindowStart(i: int, n: int): (lo: int)
    requires 0 < n && 0 <= i
    ensures 0 <= lo <= i && (i >= n ==> lo == i - n) && (i <= n ==> lo == 0)
  {
    if i > n then i - n else 0
  }

  /** `sma(n)`: a NaN-filled array written from the running window sum. */
  method Sma(closes: seq<real>, n: int) returns (line: seq<Float>)
    requires 0 < n
    ensures line == SmaLine(closes, n)
  {
    var out := new Float[|closes|](_ => NotFinite);
    var sum := 0.0;
    for i := 0 to |closes|
      invariant sum == Sum(closes, WindowStart(i, n), i)
      invariant forall j :: 0 <= j < i ==> out[j] == SmaAt(closes, n, j)
      invariant forall j :: i <= j < |closes| ==> out[j] == NotFinite
    {
      sum := sum + closes[i];
      if i >= n {
        SumDropFirst(closes, i - n, i + 1);
        sum := sum - closes[i - n];
      }
      if i >= n - 1 {
        out[i] := Finite(Fixed(sum / n as real, 4));
      }
    }
    line := out[..];
  }

  /** Each average lies within the closes of its window, up to the
      rounding the closes themselves would get. */
  lemma SmaWithinWindow(closes: seq<real>, n: int, i: int, lo: real, hi: real)
    requires 0 < n && n - 1 <= i < |closes|
    requires forall j :: i - n + 1 <= j <= i ==> lo <= closes[j] <= hi
    ensures Fixed(lo, 4) <= SmaAt(closes, n, i).val <= Fixed(hi, 4)
  {
    var s := Sum(closes, i - n + 1, i + 1);
    SumBounds(closes, i - n + 1, i + 1, lo, hi);
    DivWithin(s, n as real, lo, hi);
    FixedMonotone(lo, s / n as real, 4);
    FixedMonotone(s / n as real, hi, 4);
  }

  // ---------------------------------------------------------------------
  // Bollinger bands.

  function Squares(xs: seq<real>): (r: seq<real>)
    ensures |r| == |xs| && forall i :: 0 <= i < |xs| ==> r[i] == xs[i] * xs[i]
  {
    seq(|xs|, i requires 0 <= i < |xs| => xs[i] * xs[i])
  }

  /** The window of n bars ending at i, as [i - n + 1, i + 1). */
  function WindowSums(closes: seq<real>, n: int, i: int): (real, real)
    requires 0 < n && n - 1 <= i < |closes|
  {
    (Sum(closes, i - n + 1, i + 1), Sum(Squares(closes), i - n + 1, i + 1))
  }

  /** `Math.max(0, sumsq / n - mean * mean)` for a window's sum and sum
      of squares. */
  function Variance(sum: real, sumsq: real, n: int): (v: real)
    requires 0 < n
    ensures 0.0 <= v
  {
    var mean := sum / n as real;
    var raw := sumsq / n as real - mean * mean;
    if raw > 0.0 then raw else 0.0
  }

  /** One band value before rounding: the window mean plus (upper) or
      minus (lower) k standard deviations. */
  function Band(sum: real, sumsq: real, n: int, k: real, sqrt: real -> real, upper: bool): real
    requires 0 < n
  {
    var std := sqrt(Variance(sum, sumsq, n));
    if upper then sum / n as real + k * std else sum / n as real - k * std
  }

  /** Entry i of the upper or the lower band: NaN until a full window
      exists, then the band value to four decimals. */
  function BandAt(closes: seq<real>, n: int, k: real, sqrt: real -> real, i: int, upper: bool): Float
    requires 0 < n && 0 <= i < |closes|
  {
    if i < n - 1 then NotFinite
    else
      var w := WindowSums(closes, n, i);
      Finite(Fixed(Band(w.0, w.1, n, k, sqrt, upper), 4))
  }

  function BandLine(closes: seq<real>, n: int, k: real, sqrt: real -> real, upper: bool): (r: seq<Float>)
    requires 0 < n
    ensures |r| == |closes|
    ensures forall i :: 0 <= i < |closes| ==> r[i] == BandAt(closes, n, k, sqrt, i, upper)
  {
    seq(|closes|, i requires 0 <= i < |closes| => BandAt(closes, n, k, sqrt, i, upper))
  }

  /** `boll(n, k)`: the middle line is `sma(n)`; the bands come from a
      running sum and a running sum of squares over the same window. */
  method Boll(closes: seq<real>, n: int, k: real, sqrt: real -> real) returns (mid: seq<Float>, up: seq<Float>, low: seq<Float>)
    requires 0 < n
    ensures mid == SmaLine(closes, n)
    ensures up == BandLine(closes, n, k, sqrt, true) && low == BandLine(closes, n, k, sqrt, false)
  {
    mid := Sma(closes, n);
    up, low := Bands(closes, n, k, sqrt);
  }

  /** The two band arrays of `boll`, NaN until the window is full. */
  method Bands(closes: seq<real>, n: int, k: real, sqrt: real -> real) returns (up: seq<Float>, low: seq<Float>)
    requires 0 < n
    ensures up == BandLine(closes, n, k, sqrt, true) && low == BandLine(closes, n, k, sqrt, false)
  {
    var u := new Float[|closes|](_ => NotFinite);
    var l := new Float[|closes|](_ => NotFinite);
    var sum, sumsq := 0.0, 0.0;
    var sq := Squares(closes);
    for i := 0 to |closes|
      invariant sum == Sum(closes, WindowStart(i, n), i)
      invariant sumsq == Sum(sq, WindowStart(i, n), i)
      invariant Filled(u[..], closes, n, k, sqrt, true, i) && Filled(l[..], closes, n, k, sqrt, false, i)
    {
      sum, sumsq := Slide(closes, sq, n, i, sum, sumsq);
      PutBands(u, l, closes, n, k, sqrt, i, sum, sumsq);
    }
    up, low := u[..], l[..];
  }

  /** Entry i of both band arrays: written from the window's two sums once
      the window is full, left NaN before. */
  method PutBands(u: array<Float>, l: array<Float>, closes: seq<real>, n: int, k: real, sqrt: real -> real,
                  i: int, sum: real, sumsq: real)
    modifies u, l
    requires u != l && 0 < n && 0 <= i < |closes|
    requires Filled(u[..], closes, n, k, sqrt, true, i) && Filled(l[..], closes, n, k, sqrt, false, i)
    requires sum == Sum(closes, WindowStart(i + 1, n), i + 1)
    requires sumsq == Sum(Squares(closes), WindowStart(i + 1, n), i + 1)
    ensures Filled(u[..], closes, n, k, sqrt, true, i + 1) && Filled(l[..], closes, n, k, sqrt, false, i + 1)
  {
    if i >= n - 1 {
      var top, bottom := BandPoint(sum, sumsq, n, k, sqrt);
      BandAtFromSums(closes, n, k, sqrt, i, sum, sumsq);
      FilledGrow(u[..], closes, n, k, sqrt, true, i, Finite(top));
      FilledGrow(l[..], closes, n, k, sqrt, false, i, Finite(bottom));
      u[i] := Finite(top);
      l[i] := Finite(bottom);
    } else {
      FilledGrow(u[..], closes, n, k, sqrt, true, i, NotFinite);
      FilledGrow(l[..], closes, n, k, sqrt, false, i, NotFinite);
      assert u[..][i := NotFinite] == u[..] && l[..][i := NotFinite] == l[..];
    }
  }

  /** The first i entries of a band array hold the band, the rest are
      still NaN. */
  ghost predicate Filled(s: seq<Float>, closes: seq<real>, n: int, k: real, sqrt: real -> real, upper: bool, i: int)
    requires 0 < n
  {
    |s| == |closes| && 0 <= i <= |s|
    && (forall j :: 0 <= j < i ==> s[j] == BandAt(closes, n, k, sqrt, j, upper))
    && (forall j :: i <= j < |s| ==> s[j] == NotFinite)
  }

  /** Writing entry i of the band fills one more entry. */
  lemma FilledGrow(s: seq<Float>, closes: seq<real>, n: int, k: real, sqrt: real -> real, upper: bool, i: int, v: Float)
    requires 0 < n && Filled(s, closes, n, k, sqrt, upper, i) && i < |closes|
    requires v == BandAt(closes, n, k, sqrt, i, upper)
    ensures Filled(s[i := v], closes, n, k, sqrt, upper, i + 1)
  {
  }

  /** The running sums of `boll` taking in close i and, once the window
      is full, dropping close i - n. */
  method Slide(closes: seq<real>, sq: seq<real>, n: int, i: int, sum: real, sumsq: real)
    returns (sum': real, sumsq': real)
    requires 0 < n && 0 <= i < |closes| && sq == Squares(closes)
    requires sum == Sum(closes, WindowStart(i, n), i)
    requires sumsq == Sum(sq, WindowStart(i, n), i)
    ensures sum' == Sum(closes, WindowStart(i + 1, n), i + 1)
    ensures sumsq' == Sum(sq, WindowStart(i + 1, n), i + 1)
  {
    var v := closes[i];
    assert sq[i] == v * v;
    sum' := sum + v;
    sumsq' := sumsq + v * v;
    if i >= n {
      var vOut := closes[i - n];
      assert sq[i - n] == vOut * vOut;
      SumDropFirst(closes, i - n, i + 1);
      SumDropFirst(sq, i - n, i + 1);
      sum' := sum' - vOut;
      sumsq' := sumsq' - vOut * vOut;
    }
  }

  /** A full window's entry of either band is the rounded band of that
      window's two sums. */
  lemma BandAtFromSums(closes: seq<real>, n: int, k: real, sqrt: real -> real, i: int, sum: real, sumsq: real)
    requires 0 < n && n - 1 <= i < |closes|
    requires sum == Sum(closes, i - n + 1, i + 1) && sumsq == Sum(Squares(closes), i - n + 1, i + 1)
    ensures BandAt(closes, n, k, sqrt, i, true) == Finite(Fixed(Band(sum, sumsq, n, k, sqrt, true), 4))
    ensures BandAt(closes, n, k, sqrt, i, false) == Finite(Fixed(Band(sum, sumsq, n, k, sqrt, false), 4))
  {
  }

  /** The body of the `i >= n - 1` branch of `boll`. */
  method BandPoint(sum: real, sumsq: real, n: int, k: real, sqrt: real -> real) returns (up: real, low: real)
    requires 0 < n
    ensures up == Fixed(Band(sum, sumsq, n, k, sqrt, true), 4) && low == Fixed(Band(sum, sumsq, n, k, sqrt, false), 4)
  {
    var mean := sum / n as real;
    var raw := sumsq / n as real - mean * mean;
    var variance := if raw > 0.0 then raw else 0.0;
    assert variance == Variance(sum, sumsq, n);
    var std := sqrt(variance);
    assert mean + k * std == Band(sum, sumsq, n, k, sqrt, true);
    assert mean - k * std == Band(sum, sumsq, n, k, sqrt, false);
    up := Fixed(mean + k * std, 4);
    low := Fixed(mean - k * std, 4);
  }

  /** Wherever the bands are defined, the lower band is at or below the
      middle line and the middle line at or below the upper band. */
  lemma BandsOrdered(closes: seq<real>, n: int, k: real, sqrt: real -> real, i: int)
    requires IsSqrt(sqrt) && 0.0 <= k
    requires 0 < n && n - 1 <= i < |closes|
    ensures BandAt(closes, n, k, sqrt, i, false).Finite? && BandAt(closes, n, k, sqrt, i, true).Finite?
    ensures BandAt(closes, n, k, sqrt, i, false).val <= SmaAt(closes, n, i).val <= BandAt(closes, n, k, sqrt, i, true).val
  {
    var w := WindowSums(closes, n, i);
    BandAroundMean(w.0, w.1, n, k, sqrt);
  }

  lemma BandAroundMean(sum: real, sumsq: real, n: int, k: real, sqrt: real -> real)
    requires IsSqrt(sqrt) && 0.0 <= k && 0 < n
    ensures Fixed(Band(sum, sumsq, n, k, sqrt, false), 4) <= Fixed(sum / n as real, 4)
              <= Fixed(Band(sum, sumsq, n, k, sqrt, true), 4)
  {
    var v := Variance(sum, sumsq, n);
    SqrtNonNegative(sqrt, v);
    ProductNonNegative(k, sqrt(v));
    var mean := sum / n as real;
    assert Band(sum, sumsq, n, k, sqrt, false) <= mean <= Band(sum, sumsq, n, k, sqrt, true);
    FixedMonotone(Band(sum, sumsq, n, k, sqrt, false), mean, 4);
    FixedMonotone(mean, Band(sum, sumsq, n, k, sqrt, true), 4);
  }

  lemma SqrtNonNegative(sqrt: real -> real, v: real)
    requires IsSqrt(sqrt) && 0.0 <= v
    ensures 0.0 <= sqrt(v)
  {
    if v != 0.0 {
      assert 0.0 < v;
    }
  }

  lemma ProductNonNegative(a: real, b: real)
    requires 0.0 <= a && 0.0 <= b
    ensures 0.0 <= a * b
  {
  }

  /** Before the first full window all three lines are NaN, from it on all
      three are numbers. */
  lemma BandsDefinedFromWindow(closes: seq<real>, n: int, k: real, sqrt: real -> real, i: int)
    requires 0 < n && 0 <= i < |closes|
    ensures SmaAt(closes, n, i).Finite? <==> n - 1 <= i
    ensures BandAt(closes, n, k, sqrt, i, true).Finite? <==> n - 1 <= i
    ensures BandAt(closes, n, k, sqrt, i, false).Finite? <==> n - 1 <= i
  {
  }

  // ---------------------------------------------------------------------
  // Trade markers.

  /** A trade of this side on one of the first len bars. */
  function Keeps(side: string, len: int): Mark -> bool {
    (t: Mark) => t.side == side && 0 <= t.index < len
  }

  /** `trades.filter(t => t.side === side && t.index >= 0 && t.index < len)`. */
  function Kept(trades: seq<Mark>, side: string, len: int): (r: seq<Mark>)
    ensures forall t :: t in r <==> t in trades && t.side == side && 0 <= t.index < len
  {
    Filter(trades, Keeps(side, len))
  }

  /** The scatter points of one side: bar index and that bar's close. */
  function Points(trades: seq<Mark>, side: string, closes: seq<real>): (r: seq<(int, real)>)
    ensures |r| == |Kept(trades, side, |closes|)|
  {
    var kept := Kept(trades, side, |closes|);
    seq(|kept|, j requires 0 <= j < |kept| => (kept[j].index, closes[kept[j].index]))
  }

  /** The bar indices of one side's dashed mark lines. */
  function LineIndices(trades: seq<Mark>, side: string, len: int): (r: seq<int>)
    ensures |r| == |Kept(trades, side, len)|
  {
    var kept := Kept(trades, side, len);
    seq(|kept|, j requires 0 <= j < |kept| => kept[j].index)
  }

  /** A point is drawn exactly for each trade of that side on a bar of the
      chart, at that bar's close. */
  lemma PointsAreTradesInRange(trades: seq<Mark>, side: string, closes: seq<real>)
    ensures forall p :: p in Points(trades, side, closes) ==>
      0 <= p.0 < |closes| && p.1 == closes[p.0] && Mark(p.0, side) in trades
    ensures forall t :: t in trades && t.side == side && 0 <= t.index < |closes| ==>
      (t.index, closes[t.index]) in Points(trades, side, closes)
  {
    var kept := Kept(trades, side, |closes|);
    var pts := Points(trades, side, closes);
    forall p | p in pts
      ensures 0 <= p.0 < |closes| && p.1 == closes[p.0] && Mark(p.0, side) in trades
    {
      var j :| 0 <= j < |pts| && pts[j] == p;
      assert kept[j] in kept;
    }
    forall t | t in trades && t.side == side && 0 <= t.index < |closes|
      ensures (t.index, closes[t.index]) in pts
    {
      assert t in kept;
      var j :| 0 <= j < |kept| && kept[j] == t;
      assert pts[j] == (t.index, closes[t.index]);
    }
  }

  /** The mark lines of the candlestick series: the buy lines when buys are
      shown, then the sell lines when sells are shown. */
  function MarkLines(trades: seq<Mark>, showBuy: bool, showSell: bool, len: int): seq<int> {
    (if showBuy then LineIndices(trades, "buy", len) else [])
      + (if showSell then LineIndices(trades, "sell", len) else [])
  }

  /** Every mark line sits on a bar of the chart and belongs to a trade of
      a side that is shown; with neither side shown there are none. */
  lemma MarkLinesShown(trades: seq<Mark>, showBuy: bool, showSell: bool, len: int)
    ensures forall m :: m in MarkLines(trades, showBuy, showSell, len) ==>
      0 <= m < len && ((showBuy && Mark(m, "buy") in trades) || (showSell && Mark(m, "sell") in trades))
    ensures !showBuy && !showSell ==> MarkLines(trades, showBuy, showSell, len) == []
  {
    var b, s := LineIndices(trades, "buy", len), LineIndices(trades, "sell", len);
    LineIndicesInRange(trades, "buy", len);
    LineIndicesInRange(trades, "sell", len);
  }

  lemma LineIndicesInRange(trades: seq<Mark>, side: string, len: int)
    ensures forall m :: m in LineIndices(trades, side, len) ==> 0 <= m < len && Mark(m, side) in trades
  {
    var kept := Kept(trades, side, len);
    var r := LineIndices(trades, side, len);
    forall m | m in r
      ensures 0 <= m < len && Mark(m, side) in trades
    {
      var j :| 0 <= j < |r| && r[j] == m;
      assert kept[j] in kept;
    }
  }

  // ---------------------------------------------------------------------
  // Volume bars and the tooltip labels.

  const Rise := "#f5222d"
  const Fall := "#52c41a"

  datatype VolumeBar = VolumeBar(value: real, color: string)

  /** Each bar's volume (`Number(c.Volume ?? 0)`), red when the close is at
      or above the open and green otherwise. */
  function VolumeBars(candles: seq<Candle>): (r: seq<VolumeBar>)
    ensures |r| == |candles|
    ensures forall i :: 0 <= i < |candles| ==>
      r[i].value == candles[i].volume.GetOr(0.0)
      && (r[i].color == Rise <==> candles[i].close >= candles[i].open)
      && (r[i].color == Fall <==> candles[i].close < candles[i].open)
  {
    seq(|candles|, i requires 0 <= i < |candles| =>
      VolumeBar(candles[i].volume.GetOr(0.0), if candles[i].close >= candles[i].open then Rise else Fall))
  }

  /** A tooltip quantity: the number its digits read as, and its unit. */
  datatype Label = Label(shown: real, unit: string)

  /** `fmtWanYi`: hundreds of millions from 1e8 up, tens of thousands from
      1e4 up, both to two decimals; smaller numbers as they are. */
  function FmtWanYi(n: real, unit: string, wanUnit: string, yiUnit: string): Label {
    if n >= 100000000.0 then Label(Fixed(n / 100000000.0, 2), yiUnit)
    else if n >= 10000.0 then Label(Fixed(n / 10000.0, 2), wanUnit)
    else Label(n, unit)
  }

  /** The factor a label's unit stands for. */
  function Scale(n: real): real {
    if n >= 100000000.0 then 100000000.0 else if n >= 10000.0 then 10000.0 else 1.0
  }

  /** A label, scaled back by its unit, is within half a hundredth of the
      unit of the number it shows. */
  lemma LabelReadsBack(n: real, unit: string, wanUnit: string, yiUnit: string)
    ensures var s := Scale(n);
      n - 0.005 * s <= FmtWanYi(n, unit, wanUnit, yiUnit).shown * s <= n + 0.005 * s
  {
    var s := Scale(n);
    if s != 1.0 {
      var x := n / s;
      FixedClose(x, 2);
      assert Pow10(2) == 100;
      var f := Fixed(x, 2);
      ScaleMonotone(x - 0.005, f, s);
      ScaleMonotone(f, x + 0.005, s);
      DivMul(n, s);
      assert (x - 0.005) * s == n - 0.005 * s;
      assert (x + 0.005) * s == n + 0.005 * s;
    }
  }

  /** A 万 label shows 1.00 to 10000.00, a 亿 label at least 1.00. */
  lemma LabelMantissa(n: real, unit: string, wanUnit: string, yiUnit: string)
    ensures 10000.0 <= n < 100000000.0 ==> 1.0 <= FmtWanYi(n, unit, wanUnit, yiUnit).shown <= 10000.0
    ensures 100000000.0 <= n ==> 1.0 <= FmtWanYi(n, unit, wanUnit, yiUnit).shown
  {
    assert Pow10(2) == 100;
    FixedExact(1.0, 2, 100);
    FixedExact(10000.0, 2, 1000000);
    if 10000.0 <= n < 100000000.0 {
      ScaleMonotone(10000.0, n, 10000.0);
      ScaleMonotone(n, 100000000.0, 10000.0);
      FixedMonotone(1.0, n / 10000.0, 2);
      FixedMonotone(n / 10000.0, 10000.0, 2);
    } else if 100000000.0 <= n {
      ScaleMonotone(100000000.0, n, 100000000.0);
      FixedMonotone(1.0, n / 100000000.0, 2);
    }
  }

  /** The tooltip's volume line, and its turnover line when the candle
      carries a numeric amount. */
  function TooltipLabels(c: Candle): (Label, Option<Label>) {
    (FmtWanYi(c.volume.GetOr(0.0), "手", "万手", "亿手"),
     if c.amount.Some? then Some(FmtWanYi(c.amount.value, "元", "万元", "亿元")) else None)
  }

  // ---------------------------------------------------------------------
  // The zoom window.

  /** `defaultWindowCount ? Math.max(0, len - defaultWindowCount) : 0`. */
  function StartIndex(len: int, windowCount: Option<real>): (r: real)
    ensures 0.0 <= r
  {
    if windowCount.Some? && windowCount.value != 0.0 then
      (if len as real - windowCount.value > 0.0 then len as real - windowCount.value else 0.0)
    else 0.0
  }

  /** A window of w bars opens on the last min(len, w) of them; without a
      window count the zoom opens on every bar. */
  lemma WindowShowsLastBars(len: nat, w: int)
    requires 1 <= w
    ensures len as real - StartIndex(len, Some(w as real)) == (if len < w then len else w) as real
    ensures StartIndex(len, None) == 0.0
  {
  }

  // ---------------------------------------------------------------------
  // The option handed to the chart.

  const CandleName := "K线"
  const Sma5Name := "SMA5"
  const Sma20Name := "SMA20"
  const MidName := "布林中轨"
  const UpName := "布林上轨"
  const LowName := "布林下轨"
  const BuyName := "买入"
  const SellName := "卖出"

  datatype Series =
    | CandleSeries(ohlc: seq<(real, real, real, real)>, marks: seq<int>)
    | LineSeries(name: string, data: seq<Float>)
    | ReturnSeries(percent: seq<real>)
    | ScatterSeries(name: string, points: seq<(int, real)>)
    | VolumeSeries(bars: seq<VolumeBar>)

  datatype Flags = Flags(showBuy: bool, showSell: bool, showReturns: bool, enableZoom: bool,
                         windowCount: Option<real>, showBollinger: bool, showVolume: bool)

  datatype ChartOption = ChartOption(x: seq<string>, series: seq<Series>, hidden: set<string>,
                                     zoom: Option<(real, int)>)

  /** `[c.Open, c.Close, c.Low, c.High]` per candle. */
  function Ohlc(candles: seq<Candle>): (r: seq<(real, real, real, real)>)
    ensures |r| == |candles|
  {
    seq(|candles|, i requires 0 <= i < |candles| => (candles[i].open, candles[i].close, candles[i].low, candles[i].high))
  }

  /** The six series always drawn: candles, the two averages and the
      three Bollinger lines. */
  function FixedSeries(candles: seq<Candle>, trades: seq<Mark>, f: Flags, sqrt: real -> real): (r: seq<Series>)
    ensures |r| == 6
  {
    var closes := ClosesOf(candles);
    [CandleSeries(Ohlc(candles), MarkLines(trades, f.showBuy, f.showSell, |candles|)),
     LineSeries(Sma5Name, SmaLine(closes, 5)), LineSeries(Sma20Name, SmaLine(closes, 20)),
     LineSeries(MidName, SmaLine(closes, 20)), LineSeries(UpName, BandLine(closes, 20, 2.0, sqrt, true)),
     LineSeries(LowName, BandLine(closes, 20, 2.0, sqrt, false))]
  }

  /** The series drawn on request: the return line, the two scatter sides
      when they have points, and the volume bars. */
  function OptionalSeries(candles: seq<Candle>, trades: seq<Mark>, equity: seq<real>, f: Flags): seq<Series> {
    ReturnPart(equity, f) + Extras(candles, trades, f)
  }

  /** The return line, on the secondary axis, when there is an equity
      curve and returns are shown. */
  function ReturnPart(equity: seq<real>, f: Flags): seq<Series> {
    if |equity| > 0 && f.showReturns then [ReturnSeries(ReturnsChart.ReturnLine(equity))] else []
  }

  /** The scatter sides and the volume bars; none of them is a return line. */
  function Extras(candles: seq<Candle>, trades: seq<Mark>, f: Flags): (r: seq<Series>)
    ensures forall j :: 0 <= j < |r| ==> !r[j].ReturnSeries?
  {
    var closes := ClosesOf(candles);
    var buys, sells := Points(trades, "buy", closes), Points(trades, "sell", closes);
    (if |buys| > 0 && f.showBuy then [ScatterSeries(BuyName, buys)] else [])
      + (if |sells| > 0 && f.showSell then [ScatterSeries(SellName, sells)] else [])
      + (if f.showVolume then [VolumeSeries(VolumeBars(candles))] else [])
  }

  function OptionOf(candles: seq<Candle>, trades: Option<seq<Mark>>, equity: Option<seq<real>>, f: Flags,
                    day: string -> string, sqrt: real -> real): ChartOption
  {
    var ts := trades.GetOr([]);
    ChartOption(
      seq(|candles|, i requires 0 <= i < |candles| => day(candles[i].time)),
      FixedSeries(candles, ts, f, sqrt) + OptionalSeries(candles, ts, equity.GetOr([]), f),
      {MidName, UpName, LowName},
      if f.enableZoom then Some((StartIndex(|candles|, f.windowCount), |candles| - 1)) else None)
  }

  /** The component: nothing without candles, otherwise the option built
      from the computed lines. */
  method Chart(candles: seq<Candle>, trades: Option<seq<Mark>>, equity: Option<seq<real>>, f: Flags,
               day: string -> string, sqrt: real -> real) returns (o: Option<ChartOption>)
    ensures o.None? <==> |candles| == 0
    ensures o.Some? ==> o.value == OptionOf(candles, trades, equity, f, day, sqrt)
  {
    if |candles| == 0 {
      return None;
    }
    var closes := ClosesOf(candles);
    var ts := trades.GetOr([]);
    var eq := equity.GetOr([]);
    var mid, up, low := Boll(closes, 20, 2.0, sqrt);
    var sma5 := Sma(closes, 5);
    var sma20 := Sma(closes, 20);
    var fixed := [CandleSeries(Ohlc(candles), MarkLines(ts, f.showBuy, f.showSell, |candles|)),
                  LineSeries(Sma5Name, sma5), LineSeries(Sma20Name, sma20),
                  LineSeries(MidName, mid), LineSeries(UpName, up), LineSeries(LowName, low)];
    o := Some(ChartOption(
      seq(|candles|, i requires 0 <= i < |candles| => day(candles[i].time)),
      fixed + OptionalSeries(candles, ts, eq, f),
      {MidName, UpName, LowName},
      if f.enableZoom then Some((StartIndex(|candles|, f.windowCount), |candles| - 1)) else None));
  }

  /** The Bollinger lines are drawn whatever `showBollinger` says, and the
      legend starts with all three switched off. */
  lemma BollingerAlwaysDrawn(candles: seq<Candle>, trades: Option<seq<Mark>>, equity: Option<seq<real>>, f: Flags,
                             day: string -> string, sqrt: real -> real)
    ensures var o := OptionOf(candles, trades, equity, f, day, sqrt);
      var closes := ClosesOf(candles);
      o.series[3] == LineSeries(MidName, SmaLine(closes, 20))
      && o.series[4] == LineSeries(UpName, BandLine(closes, 20, 2.0, sqrt, true))
      && o.series[5] == LineSeries(LowName, BandLine(closes, 20, 2.0, sqrt, false))
      && o.hidden == {MidName, UpName, LowName}
    ensures OptionOf(candles, trades, equity, f.(showBollinger := !f.showBollinger), day, sqrt)
              == OptionOf(candles, trades, equity, f, day, sqrt)
  {
  }

  /** The return line is drawn exactly when there is an equity curve and
      returns are shown, and it is the percent-return line of that curve. */
  lemma ReturnLineDrawn(candles: seq<Candle>, trades: seq<Mark>, equity: seq<real>, f: Flags)
    ensures var s := OptionalSeries(candles, trades, equity, f);
      (exists j :: 0 <= j < |s| && s[j].ReturnSeries?) <==> |equity| > 0 && f.showReturns
    ensures var s := OptionalSeries(candles, trades, equity, f);
      forall j :: 0 <= j < |s| && s[j].ReturnSeries? ==> |equity| > 0 && s[j].percent == ReturnsChart.ReturnLine(equity)
  {
    var r, rest := ReturnPart(equity, f), Extras(candles, trades, f);
    var s := r + rest;
    if |equity| > 0 && f.showReturns {
      assert s[0].ReturnSeries?;
    }
  }
}
