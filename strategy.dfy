/** Signal strategies: a moving-average crossover, a Wilder-smoothed RSI and an
    all-zero strategy, each turning a daily series into one signal per bar
    (1 buy, -1 sell, 0 nothing), and the name-keyed registry that holds them. */
module Strategy {
  import opened Common

  datatype Strategy = SMA(fast: int, slow: int) | RSI(period: int) | Test

  function Name(s: Strategy): string {
    match s
    case SMA(_, _) => "sma_cross"
    case RSI(_) => "rsi"
    case Test => "测试"
  }

  /** The three kinds of strategy register under three different names. */
  lemma NamesDistinct(a: Strategy, b: Strategy)
    ensures Name(a) == Name(b) <==> (a.SMA? && b.SMA?) || (a.RSI? && b.RSI?) || (a.Test? && b.Test?)
  {
    assert |"sma_cross"| == 9 && |"rsi"| == 3 && |"测试"| == 2;
  }

  // ---------------------------------------------------------------------
  // The edge trigger shared by both real generators.

  /** The regime before bar i: that of bar i-1, and 0 before the first bar. */
  function Before(rs: seq<int>, i: int): int
    requires 0 <= i <= |rs|
  {
    if i == 0 then 0 else rs[i - 1]
  }

  /** The signal of bar i: the regime, when it differs from the previous one. */
  function Trigger(rs: seq<int>, i: int): int
    requires 0 <= i < |rs|
  {
    if rs[i] != Before(rs, i) then rs[i] else 0
  }

  function EdgeTrigger(rs: seq<int>): (out: seq<int>)
    ensures |out| == |rs|
  {
    seq(|rs|, i requires 0 <= i < |rs| => Trigger(rs, i))
  }

  /** A signal is emitted on exactly the bars whose regime is non-zero and
      differs from the previous bar's, and it is the new regime; a regime in
      {-1, 0, 1} gives signals in {-1, 0, 1}. */
  lemma EdgeTriggerMeaning(rs: seq<int>)
    ensures forall i :: 0 <= i < |rs| ==> (EdgeTrigger(rs)[i] != 0 <==> rs[i] != 0 && rs[i] != Before(rs, i))
    ensures forall i :: 0 <= i < |rs| && EdgeTrigger(rs)[i] != 0 ==> EdgeTrigger(rs)[i] == rs[i]
    ensures (forall i :: 0 <= i < |rs| ==> -1 <= rs[i] <= 1) ==> forall i :: 0 <= i < |rs| ==> -1 <= EdgeTrigger(rs)[i] <= 1
  {
  }

  /** While the regime stays 0 from the first bar on, nothing is emitted. */
  lemma {:induction false} QuietWhileRegimeZero(rs: seq<int>, m: int)
    requires 0 <= m <= |rs|
    requires forall j :: 0 <= j < m ==> rs[j] == 0
    ensures forall j :: 0 <= j < m ==> EdgeTrigger(rs)[j] == 0
  {
    forall j | 0 <= j < m
      ensures EdgeTrigger(rs)[j] == 0
    {
      assert rs[j] == 0;
    }
  }

  // ---------------------------------------------------------------------
  // Simple moving average and the crossover strategy.

  /** The value `sma(xs, n)` holds at position i: the mean of the n-bar window
      ending at i once the window is full, 0 before. */
  function SmaAt(xs: seq<real>, n: int, i: int): real
    requires 0 < n && 0 <= i < |xs|
  {
    if i >= n - 1 then Sum(xs, i - n + 1, i + 1) / n as real else 0.0
  }

  /** A full window's mean lies between the window's least and greatest price. */
  lemma {:induction false} SmaWithinWindow(xs: seq<real>, n: int, i: int, lo: real, hi: real)
    requires 0 < n && n - 1 <= i < |xs|
    requires forall j :: i - n + 1 <= j <= i ==> lo <= xs[j] <= hi
    ensures lo <= SmaAt(xs, n, i) <= hi
  {
    SumBounds(xs, i - n + 1, i + 1, lo, hi);
    DivWithin(Sum(xs, i - n + 1, i + 1), n as real, lo, hi);
  }

  /** The sliding-window mean `sma`: nil for a non-positive window, otherwise
      one value per input, kept with a running sum. */
  method Sma(xs: seq<real>, n: int) returns (out: seq<real>)
    ensures n <= 0 ==> out == []
    ensures n > 0 ==> |out| == |xs| && forall i :: 0 <= i < |xs| ==> out[i] == SmaAt(xs, n, i)
  {
    if n <= 0 {
      return [];
    }
    var a := new real[|xs|](_ => 0.0);
    var sum := 0.0;
    for i := 0 to |xs|
      invariant sum == Sum(xs, if i >= n then i - n else 0, i)
      invariant forall j :: 0 <= j < i ==> a[j] == SmaAt(xs, n, j)
      invariant forall j :: i <= j < |xs| ==> a[j] == 0.0
    {
      sum := sum + xs[i];
      if i >= n {
        SumDropFirst(xs, i - n, i + 1);
        sum := sum - xs[i - n];
      }
      if i >= n - 1 {
        a[i] := sum / n as real;
      }
    }
    out := a[..];
  }

  /** The crossover regime of one bar. */
  function CrossRegime(fast: real, slow: real): (r: int)
    ensures r == 1 <==> fast != 0.0 && slow != 0.0 && fast > slow
    ensures r == -1 <==> fast != 0.0 && slow != 0.0 && fast < slow
    ensures r == 0 <==> fast == 0.0 || slow == 0.0 || fast == slow
  {
    if fast == 0.0 || slow == 0.0 then 0
    else if fast > slow then 1
    else if fast < slow then -1
    else 0
  }

  function CrossRegimes(ks: seq<Kline>, fast: int, slow: int): (rs: seq<int>)
    requires 0 < fast && 0 < slow
    ensures |rs| == |ks|
  {
    var xs := Closes(ks);
    seq(|ks|, i requires 0 <= i < |ks| => CrossRegime(SmaAt(xs, fast, i), SmaAt(xs, slow, i)))
  }

  /** `SMA.Signals`, specified. With a non-positive window and a non-empty
      series the source indexes a nil slice, so such calls are excluded. */
  function SmaSignalsOf(fast: int, slow: int, ks: seq<Kline>): seq<int>
    requires |ks| > 0 ==> 0 < fast && 0 < slow
  {
    if |ks| == 0 then [] else EdgeTrigger(CrossRegimes(ks, fast, slow))
  }

  /** No crossover signal is emitted before both windows are full. */
  lemma {:induction false} NoCrossBeforeWindowsFill(fast: int, slow: int, ks: seq<Kline>)
    requires 0 < fast && 0 < slow
    ensures forall j :: 0 <= j < |ks| && j < fast - 1 ==> SmaSignalsOf(fast, slow, ks)[j] == 0
    ensures forall j :: 0 <= j < |ks| && j < slow - 1 ==> SmaSignalsOf(fast, slow, ks)[j] == 0
  {
    if |ks| > 0 {
      var rs := CrossRegimes(ks, fast, slow);
      var big := if fast < slow then slow - 1 else fast - 1;
      var bb := if big < |ks| then big else |ks|;
      QuietWhileRegimeZero(rs, bb);
    }
  }

  /** The closes of a series as float64 yuan, filled bar by bar. */
  method ClosePrices(ks: seq<Kline>) returns (prices: seq<real>)
    ensures prices == Closes(ks)
  {
    var a := new real[|ks|](_ => 0.0);
    for i := 0 to |ks|
      invariant forall j :: 0 <= j < i ==> a[j] == PriceFloat(ks[j].close)
    {
      a[i] := PriceFloat(ks[i].close);
    }
    prices := a[..];
  }

  /** `SMA.Signals`: the two averages of the closes, the crossover regime per
      bar and the edge trigger with a mutable `prev`. */
  method SmaSignals(fast: int, slow: int, ks: seq<Kline>) returns (out: seq<int>)
    requires |ks| > 0 ==> 0 < fast && 0 < slow
    ensures out == SmaSignalsOf(fast, slow, ks)
  {
    if |ks| == 0 {
      return [];
    }
    var prices := ClosePrices(ks);
    var f := Sma(prices, fast);
    var l := Sma(prices, slow);
    ghost var rs := CrossRegimes(ks, fast, slow);
    var a := new int[|ks|](_ => 0);
    var prev := 0;
    for i := 0 to |ks|
      invariant prev == Before(rs, i)
      invariant forall j :: 0 <= j < i ==> a[j] == Trigger(rs, j)
      invariant forall j :: i <= j < |ks| ==> a[j] == 0
    {
      var sig := 0;
      assert rs[i] == CrossRegime(f[i], l[i]);
      if f[i] == 0.0 || l[i] == 0.0 {
        sig := 0;
      } else if f[i] > l[i] {
        sig := 1;
      } else if f[i] < l[i] {
        sig := -1;
      }
      assert sig == rs[i];
      if sig != prev {
        a[i] := sig;
        prev := sig;
      }
    }
    out := a[..];
    assert out == EdgeTrigger(rs);
  }

  // ---------------------------------------------------------------------
  // Wilder-smoothed RSI.

  /** A period of 1 or less becomes 14. */
  function RsiPeriod(period: int): (n: int)
    ensures n >= 2
    ensures period > 1 ==> n == period
  {
    if period <= 1 then 14 else period
  }

  /** Bar-to-bar rise of the close, in yuan; 0 on the first bar and on a fall. */
  function Gain(ks: seq<Kline>, i: int): real
    requires 0 <= i < |ks|
  {
    if i == 0 then 0.0
    else var d := ks[i].close - ks[i - 1].close; if d > 0 then PriceFloat(d) else 0.0
  }

  /** Bar-to-bar fall of the close, in yuan; 0 on the first bar and on a rise. */
  function Loss(ks: seq<Kline>, i: int): real
    requires 0 <= i < |ks|
  {
    if i == 0 then 0.0
    else var d := ks[i].close - ks[i - 1].close; if d > 0 then 0.0 else PriceFloat(-d)
  }

  function Gains(ks: seq<Kline>): (g: seq<real>)
    ensures |g| == |ks| && forall i :: 0 <= i < |ks| ==> g[i] == Gain(ks, i)
  {
    seq(|ks|, i requires 0 <= i < |ks| => Gain(ks, i))
  }

  function Losses(ks: seq<Kline>): (l: seq<real>)
    ensures |l| == |ks| && forall i :: 0 <= i < |ks| ==> l[i] == Loss(ks, i)
  {
    seq(|ks|, i requires 0 <= i < |ks| => Loss(ks, i))
  }

  /** Gains and losses are non-negative, never both non-zero, and 0 on bar 0. */
  lemma GainLossSplit(ks: seq<Kline>, i: int)
    requires 0 <= i < |ks|
    ensures 0.0 <= Gain(ks, i) && 0.0 <= Loss(ks, i)
    ensures Gain(ks, i) == 0.0 || Loss(ks, i) == 0.0
    ensures i == 0 ==> Gain(ks, i) == 0.0 && Loss(ks, i) == 0.0
    ensures i > 0 ==> Gain(ks, i) - Loss(ks, i) == PriceFloat(ks[i].close - ks[i - 1].close)
  {
  }

  lemma {:induction false} GainsLossesNonNegative(ks: seq<Kline>)
    ensures forall j :: 0 <= j < |ks| ==> 0.0 <= Gains(ks)[j] && 0.0 <= Losses(ks)[j]
  {
    forall j | 0 <= j < |ks| ensures 0.0 <= Gains(ks)[j] && 0.0 <= Losses(ks)[j] {
      GainLossSplit(ks, j);
    }
  }

  /** The average before smoothing starts: the first n moves over n. */
  function Seed(xs: seq<real>, n: int): real
    requires 2 <= n && n + 1 <= |xs|
  {
    Sum(xs, 1, n + 1) / n as real
  }

  /** The smoothed average at bar i (i > n): Wilder's recurrence
      avg := (avg * (n-1) + x[i]) / n, started from the seed. */
  function Smoothed(xs: seq<real>, n: int, i: int): real
    requires 2 <= n && n + 1 <= i < |xs|
    decreases i
  {
    var prev := if i == n + 1 then Seed(xs, n) else Smoothed(xs, n, i - 1);
    Smooth(prev, xs[i], n)
  }

  /** One step of Wilder's recurrence. */
  function Smooth(avg: real, x: real, n: int): real
    requires 2 <= n
  {
    (avg * (n - 1) as real + x) / n as real
  }

  /** Smoothing non-negative moves keeps the average non-negative. */
  lemma {:induction false} SmoothedNonNegative(xs: seq<real>, n: int, i: int)
    requires 2 <= n && n + 1 <= i < |xs|
    requires forall j :: 0 <= j < |xs| ==> 0.0 <= xs[j]
    ensures 0.0 <= Smoothed(xs, n, i)
    decreases i
  {
    if i == n + 1 {
      SumNonNegative(xs, 1, n + 1);
    } else {
      SmoothedNonNegative(xs, n, i - 1);
    }
    var prev := if i == n + 1 then Seed(xs, n) else Smoothed(xs, n, i - 1);
    assert 0.0 <= prev * (n - 1) as real;
    assert Smoothed(xs, n, i) == Smooth(prev, xs[i], n);
  }

  /** The RSI value from the two averages: 100 when there is no loss. */
  function RsiValue(avgGain: real, avgLoss: real): real
    requires 0.0 <= avgGain && 0.0 <= avgLoss
  {
    if avgLoss == 0.0 then 100.0 else 100.0 - 100.0 / (1.0 + avgGain / avgLoss)
  }

  lemma RsiValueBounds(avgGain: real, avgLoss: real)
    requires 0.0 <= avgGain && 0.0 <= avgLoss
    ensures 0.0 <= RsiValue(avgGain, avgLoss) <= 100.0
    ensures avgLoss == 0.0 ==> RsiValue(avgGain, avgLoss) == 100.0
  {
    if avgLoss != 0.0 {
      var rs := avgGain / avgLoss;
      assert 0.0 <= rs;
      assert 100.0 / (1.0 + rs) <= 100.0;
      assert 0.0 < 100.0 / (1.0 + rs);
    }
  }

  /** The RSI of bar i: 0 up to bar n, smoothed values after. */
  function RsiAt(ks: seq<Kline>, n: int, i: int): real
    requires 2 <= n && 0 <= i < |ks|
  {
    if i <= n then 0.0
    else
      var g, l := Gains(ks), Losses(ks);
      GainsLossesNonNegative(ks);
      SmoothedNonNegative(g, n, i);
      SmoothedNonNegative(l, n, i);
      RsiValue(Smoothed(g, n, i), Smoothed(l, n, i))
  }

  /** Every RSI value lies in [0, 100]; past bar n it is 100 when the smoothed
      loss is 0. */
  lemma {:induction false} RsiInRange(ks: seq<Kline>, n: int, i: int)
    requires 2 <= n && 0 <= i < |ks|
    ensures 0.0 <= RsiAt(ks, n, i) <= 100.0
    ensures i <= n ==> RsiAt(ks, n, i) == 0.0
    ensures i > n && Smoothed(Losses(ks), n, i) == 0.0 ==> RsiAt(ks, n, i) == 100.0
  {
    if i > n {
      var g, l := Gains(ks), Losses(ks);
      forall j | 0 <= j < |ks| ensures 0.0 <= g[j] && 0.0 <= l[j] {
        GainLossSplit(ks, j);
      }
      SmoothedNonNegative(g, n, i);
      SmoothedNonNegative(l, n, i);
      RsiValueBounds(Smoothed(g, n, i), Smoothed(l, n, i));
    }
  }

  /** The RSI regime: above 50 buy, below 50 sell, 0 and exactly 50 neutral. */
  function RsiRegime(v: real): (r: int)
    ensures r == 1 <==> v != 0.0 && v > 50.0
    ensures r == -1 <==> v != 0.0 && v < 50.0
    ensures r == 0 <==> v == 0.0 || v == 50.0
  {
    if v == 0.0 then 0
    else if v > 50.0 then 1
    else if v < 50.0 then -1
    else 0
  }

  function RsiRegimes(ks: seq<Kline>, n: int): (rs: seq<int>)
    requires 2 <= n
    ensures |rs| == |ks|
  {
    seq(|ks|, i requires 0 <= i < |ks| => RsiRegime(RsiAt(ks, n, i)))
  }

  /** `RSI.Signals`, specified. */
  function RsiSignalsOf(period: int, ks: seq<Kline>): seq<int> {
    EdgeTrigger(RsiRegimes(ks, RsiPeriod(period)))
  }

  /** No RSI signal is emitted on the first n + 1 bars. */
  lemma {:induction false} RsiQuietFirstBars(period: int, ks: seq<Kline>)
    ensures forall j :: 0 <= j < |ks| && j <= RsiPeriod(period) ==> RsiSignalsOf(period, ks)[j] == 0
  {
    var n := RsiPeriod(period);
    var rs := RsiRegimes(ks, n);
    var m := if n + 1 < |ks| then n + 1 else |ks|;
    QuietWhileRegimeZero(rs, m);
  }

  /** The first loop of `RSI.Signals`: the move of each bar split into a
      gain and a loss. */
  method SplitMoves(ks: seq<Kline>) returns (gains: seq<real>, losses: seq<real>)
    ensures gains == Gains(ks) && losses == Losses(ks)
  {
    var len := |ks|;
    var ga := new real[len](_ => 0.0);
    var la := new real[len](_ => 0.0);
    var i := 1;
    while i < len
      invariant 1 <= i && (len > 0 ==> i <= len)
      invariant forall j :: 0 <= j < len && (j < i || j == 0) ==> ga[j] == Gain(ks, j) && la[j] == Loss(ks, j)
      invariant forall j :: i <= j < len ==> ga[j] == 0.0 && la[j] == 0.0
    {
      var d := ks[i].close - ks[i - 1].close;
      if d > 0 {
        ga[i] := PriceFloat(d);
      } else {
        la[i] := PriceFloat(-d);
      }
      i := i + 1;
    }
    gains, losses := ga[..], la[..];
  }

  /** The seed loop of `RSI.Signals`: the plain averages of the gains and the
      losses of bars 1..n (of the bars there are when the series is shorter). */
  method SeedAverages(n: int, gains: seq<real>, losses: seq<real>) returns (avgGain: real, avgLoss: real)
    requires 2 <= n && |gains| == |losses|
    ensures n + 1 <= |gains| ==> avgGain == Seed(gains, n) && avgLoss == Seed(losses, n)
  {
    var len := |gains|;
    avgGain, avgLoss := 0.0, 0.0;
    var i := 1;
    while i <= n && i < len
      invariant 1 <= i <= n + 1
      invariant len > 0 ==> i <= len && avgGain == Sum(gains, 1, i) && avgLoss == Sum(losses, 1, i)
    {
      avgGain := avgGain + gains[i];
      avgLoss := avgLoss + losses[i];
      i := i + 1;
    }
    avgGain := avgGain / n as real;
    avgLoss := avgLoss / n as real;
  }

  /** Past bar n the RSI is the value of the two smoothed averages. */
  lemma RsiAtSmoothed(ks: seq<Kline>, n: int, i: int)
    requires 2 <= n && n < i < |ks|
    ensures 0.0 <= Smoothed(Gains(ks), n, i) && 0.0 <= Smoothed(Losses(ks), n, i)
    ensures RsiAt(ks, n, i) == RsiValue(Smoothed(Gains(ks), n, i), Smoothed(Losses(ks), n, i))
  {
    GainsLossesNonNegative(ks);
    SmoothedNonNegative(Gains(ks), n, i);
    SmoothedNonNegative(Losses(ks), n, i);
  }

  /** The seed and smoothing loops of `RSI.Signals`: one RSI value per bar. */
  method RsiValues(ks: seq<Kline>, n: int, gains: seq<real>, losses: seq<real>) returns (rsi: seq<real>)
    requires 2 <= n && gains == Gains(ks) && losses == Losses(ks)
    ensures |rsi| == |ks| && forall j :: 0 <= j < |ks| ==> rsi[j] == RsiAt(ks, n, j)
  {
    var len := |ks|;
    var avgGain, avgLoss := SeedAverages(n, gains, losses);
    var a := new real[len](_ => 0.0);
    var i := n + 1;
    while i < len
      invariant n + 1 <= i && (len > n + 1 ==> i <= len)
      invariant len > n + 1 ==> avgGain == (if i == n + 1 then Seed(gains, n) else Smoothed(gains, n, i - 1))
      invariant len > n + 1 ==> avgLoss == (if i == n + 1 then Seed(losses, n) else Smoothed(losses, n, i - 1))
      invariant forall j :: 0 <= j < len && (j < i || j <= n) ==> a[j] == RsiAt(ks, n, j)
      invariant forall j :: i <= j < len && n < j ==> a[j] == 0.0
      decreases len - i
    {
      avgGain := Smooth(avgGain, gains[i], n);
      avgLoss := Smooth(avgLoss, losses[i], n);
      assert avgGain == Smoothed(gains, n, i) && avgLoss == Smoothed(losses, n, i);
      RsiAtSmoothed(ks, n, i);
      if avgLoss == 0.0 {
        a[i] := 100.0;
      } else {
        var rs := avgGain / avgLoss;
        a[i] := 100.0 - 100.0 / (1.0 + rs);
      }
      i := i + 1;
    }
    rsi := a[..];
  }

  /** `RSI.Signals`: gain/loss split, seed averages, Wilder smoothing, RSI
      values and the edge trigger. */
  method RsiSignals(period: int, ks: seq<Kline>) returns (out: seq<int>)
    ensures out == RsiSignalsOf(period, ks)
  {
    var n := period;
    if n <= 1 {
      n := 14;
    }
    var len := |ks|;
    var gains, losses := SplitMoves(ks);
    var rsi := RsiValues(ks, n, gains, losses);
    ghost var rr := RsiRegimes(ks, n);
    var a := new int[len](_ => 0);
    var prev := 0;
    for k := 0 to len
      invariant prev == Before(rr, k)
      invariant forall j :: 0 <= j < k ==> a[j] == Trigger(rr, j)
      invariant forall j :: k <= j < len ==> a[j] == 0
    {
      var sig := 0;
      if rsi[k] == 0.0 {
        sig := 0;
      } else if rsi[k] > 50.0 {
        sig := 1;
      } else if rsi[k] < 50.0 {
        sig := -1;
      }
      assert sig == rr[k];
      if sig != prev {
        a[k] := sig;
        prev := sig;
      }
    }
    out := a[..];
    assert out == EdgeTrigger(rr);
  }

  // ---------------------------------------------------------------------
  // The all-zero strategy.

  /** `Test.Signals`: a fresh zeroed slice, one entry per bar. */
  function TestSignals(ks: seq<Kline>): (out: seq<int>)
    ensures |out| == |ks|
    ensures forall i :: 0 <= i < |out| ==> out[i] == 0
  {
    seq(|ks|, _ => 0)
  }

  // ---------------------------------------------------------------------
  // Dispatch through the `Strategy` interface.

  /** What `Signals` demands: an SMA with a non-positive window would index a
      nil slice on a non-empty series. */
  predicate Applicable(s: Strategy, ks: seq<Kline>) {
    s.SMA? && |ks| > 0 ==> 0 < s.fast && 0 < s.slow
  }

  function SignalsOf(s: Strategy, ks: seq<Kline>): seq<int>
    requires Applicable(s, ks)
  {
    match s
    case SMA(fast, slow) => SmaSignalsOf(fast, slow, ks)
    case RSI(period) => RsiSignalsOf(period, ks)
    case Test => TestSignals(ks)
  }

  /** Every strategy returns one signal per bar, each -1, 0 or 1. */
  lemma {:induction false} SignalsShape(s: Strategy, ks: seq<Kline>)
    requires Applicable(s, ks)
    ensures |SignalsOf(s, ks)| == |ks|
    ensures forall i :: 0 <= i < |ks| ==> -1 <= SignalsOf(s, ks)[i] <= 1
  {
    match s
    case SMA(fast, slow) =>
      if |ks| > 0 {
        var rs := CrossRegimes(ks, fast, slow);
        assert forall i :: 0 <= i < |rs| ==> -1 <= rs[i] <= 1;
      }
    case RSI(period) =>
      var rs := RsiRegimes(ks, RsiPeriod(period));
      assert forall i :: 0 <= i < |rs| ==> -1 <= rs[i] <= 1;
    case Test =>
  }

  method Signals(s: Strategy, ks: seq<Kline>) returns (out: seq<int>)
    requires Applicable(s, ks)
    ensures out == SignalsOf(s, ks)
  {
    match s
    case SMA(fast, slow) => out := SmaSignals(fast, slow, ks);
    case RSI(period) => out := RsiSignals(period, ks);
    case Test => out := TestSignals(ks);
  }

  // ---------------------------------------------------------------------
  // The registry.

  /** A strategy the engine can run on any series: an SMA needs two positive
      windows. Every strategy the package registers is one. */
  predicate Runs(s: Strategy) {
    s.SMA? ==> 0 < s.fast && 0 < s.slow
  }

  predicate Runnable(strategies: map<string, Strategy>) {
    forall k :: k in strategies ==> Runs(strategies[k])
  }

  /** The package-level `strategies` map. */
  class Registry {
    var strategies: map<string, Strategy>

    constructor ()
      ensures strategies == map[]
    {
      strategies := map[];
    }

    /** The registry after the package's `init` functions ran: RSI{14} from
        rsi.go, SMA{5, 20} from sma.go and Test from test.go. */
    constructor Builtin()
      ensures strategies == map["rsi" := RSI(14), "sma_cross" := SMA(5, 20), "测试" := Test]
    {
      var m: map<string, Strategy> := map[];
      m := m[Name(RSI(14)) := RSI(14)];
      m := m[Name(SMA(5, 20)) := SMA(5, 20)];
      m := m[Name(Test) := Test];
      strategies := m;
    }

    /** Stores s under its name, replacing any earlier entry of that name and
        leaving every other entry as it was. */
    method Register(s: Strategy)
      modifies this
      ensures strategies.Keys == old(strategies).Keys + {Name(s)}
      ensures strategies[Name(s)] == s
      ensures forall k :: k in old(strategies) && k != Name(s) ==> strategies[k] == old(strategies)[k]
    {
      strategies := strategies[Name(s) := s];
    }

    /** The strategy registered last under name, or none. */
    method Get(name: string) returns (r: Option<Strategy>)
      ensures r.Some? <==> name in strategies
      ensures r.Some? ==> r.value == strategies[name]
    {
      if name in strategies {
        r := Some(strategies[name]);
      } else {
        r := None;
      }
    }

    /** `Registry()`: every registered name exactly once, in no promised order. */
    method Names() returns (out: seq<string>)
      ensures |out| == |strategies.Keys|
      ensures forall k :: k in out <==> k in strategies
      ensures forall i, j :: 0 <= i < j < |out| ==> out[i] != out[j]
    {
      out := [];
      var rest := strategies.Keys;
      while rest != {}
        invariant rest <= strategies.Keys
        invariant forall k :: k in out <==> k in strategies.Keys - rest
        invariant forall i, j :: 0 <= i < j < |out| ==> out[i] != out[j]
        invariant |out| + |rest| == |strategies.Keys|
        decreases |rest|
      {
        var k :| k in rest;
        assert k !in out;
        out := out + [k];
        rest := rest - {k};
      }
    }
  }
}
