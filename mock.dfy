/** The offline generators the pages fall back to: random-walk candles, a
    sorted screener list and a back-test result. `Math.random()` is the
    stream `rand`: `rand(k)` is the k-th draw the call makes. */
module Mock {
  import opened Js

  /** A `Math.random()` value. */
  type Draw = r: real | 0.0 <= r < 1.0

  /** The draws one call receives, in the order it asks for them. */
  type Random = nat -> Draw

  function Max(a: real, b: real): real {
    if a >= b then a else b
  }

  function Min(a: real, b: real): real {
    if a <= b then a else b
  }

  // ---------------------------------------------------------------------
  // mockCandles

  /** The bar count when the caller gives none. */
  const DefaultBars := 80

  /** A generated bar, prices already passed through `toFixed(4)`. */
  datatype Bar = Bar(time: string, open: real, high: real, low: real, close: real, volume: int, symbol: string)

  function Start(symbol: string): real {
    if symbol == "TRENDDOWN" then 50.0 else 10.0
  }

  function Bias(symbol: string): real {
    if symbol == "TRENDUP" then 0.3 else if symbol == "TRENDDOWN" then -0.3 else 0.0
  }

  /** `Math.max(0.1, open + rnd)` with `rnd = (Math.random() - 0.5) * 1.0 + bias`. */
  function NextClose(open: real, r: Draw, bias: real): (c: real)
    ensures 0.1 <= c
  {
    Max(0.1, open + ((r - 0.5) * 1.0 + bias))
  }

  /** The walk's price before bar i: the start price, then each close. */
  function PriceBefore(symbol: string, rand: Random, i: nat): (p: real)
    ensures 0.1 <= p
  {
    if i == 0 then Start(symbol) else NextClose(PriceBefore(symbol, rand, i - 1), rand(4 * (i - 1)), Bias(symbol))
  }

  /** Bar i before rounding: open, high, low and close. Bar i makes the
      draws 4i (the move), 4i+1 (the upper wick), 4i+2 (the lower wick)
      and 4i+3 (the volume). */
  datatype Raw = Raw(open: real, high: real, low: real, close: real)

  function RawBar(symbol: string, rand: Random, i: nat): Raw {
    var open := PriceBefore(symbol, rand, i);
    var close := PriceBefore(symbol, rand, i + 1);
    Raw(open, Max(open, close) + rand(4 * i + 1) * 0.5, Min(open, close) - rand(4 * i + 2) * 0.5, close)
  }

  function BarAt(symbol: string, rand: Random, day: int -> string, i: nat): Bar {
    var r := RawBar(symbol, rand, i);
    Bar(day(i), Fixed(r.open, 4), Fixed(r.high, 4), Fixed(r.low, 4), Fixed(r.close, 4),
        (50000.0 + rand(4 * i + 3) * 50000.0).Floor, symbol)
  }

  /** The first n bars; `day(i)` is the ISO text of the start date plus i days. */
  function Candles(symbol: string, n: nat, rand: Random, day: int -> string): seq<Bar> {
    seq(n, i requires 0 <= i < n => BarAt(symbol, rand, day, i))
  }

  /** One more day appends that day's bar and keeps the earlier ones. */
  lemma CandlesGrow(symbol: string, n: nat, rand: Random, day: int -> string)
    ensures Candles(symbol, n + 1, rand, day) == Candles(symbol, n, rand, day) + [BarAt(symbol, rand, day, n)]
  {
    var longer, shorter := Candles(symbol, n + 1, rand, day), Candles(symbol, n, rand, day);
    assert forall i :: 0 <= i < n ==> longer[i] == shorter[i];
  }

  /** `mockCandles(symbol, n)`: the walk, one pushed bar per day. */
  method MockCandles(symbol: string, n: nat, rand: Random, day: int -> string) returns (arr: seq<Bar>)
    ensures arr == Candles(symbol, n, rand, day)
  {
    var price := Start(symbol);
    arr := [];
    for i := 0 to n
      invariant price == PriceBefore(symbol, rand, i)
      invariant arr == Candles(symbol, i, rand, day)
    {
      var bias := if symbol == "TRENDUP" then 0.3 else if symbol == "TRENDDOWN" then -0.3 else 0.0;
      var rnd := (rand(4 * i) - 0.5) * 1.0 + bias;
      var open := price;
      var close := Max(0.1, open + rnd);
      var high := Max(open, close) + rand(4 * i + 1) * 0.5;
      var low := Min(open, close) - rand(4 * i + 2) * 0.5;
      assert close == PriceBefore(symbol, rand, i + 1);
      assert Raw(open, high, low, close) == RawBar(symbol, rand, i);
      price := close;
      CandlesGrow(symbol, i, rand, day);
      arr := arr + [Bar(day(i), Fixed(open, 4), Fixed(high, 4), Fixed(low, 4), Fixed(close, 4),
                        (50000.0 + rand(4 * i + 3) * 50000.0).Floor, symbol)];
    }
  }

  /** Before rounding every bar's wicks enclose its body and its close is
      at least 0.1, whatever the draws. */
  lemma RawBarBounds(symbol: string, rand: Random, i: nat)
    ensures var r := RawBar(symbol, rand, i);
      r.high >= Max(r.open, r.close) && r.low <= Min(r.open, r.close) && r.close >= 0.1 && r.open >= 0.1
  {
  }

  /** After rounding too: closes stay at or above 0.1, the wicks enclose
      the body, each open is the previous close, the first open is the
      start price, and volumes lie in [50000, 100000). */
  lemma CandlesShape(symbol: string, n: nat, rand: Random, day: int -> string, i: nat)
    requires i < n
    ensures var bars := Candles(symbol, n, rand, day);
      bars[i].close >= 0.1
      && bars[i].high >= bars[i].open && bars[i].high >= bars[i].close
      && bars[i].low <= bars[i].open && bars[i].low <= bars[i].close
      && (i > 0 ==> bars[i].open == bars[i - 1].close)
      && (i == 0 ==> bars[i].open == Start(symbol))
      && 50000 <= bars[i].volume < 100000
  {
    var bars := Candles(symbol, n, rand, day);
    assert bars[i] == BarAt(symbol, rand, day, i);
    BarShape(symbol, rand, day, i);
    if i > 0 {
      assert bars[i - 1] == BarAt(symbol, rand, day, i - 1);
      OpensAtPreviousClose(symbol, rand, day, i);
    }
  }

  /** One bar after rounding: its close, its wicks, its volume, and the
      start price as the first open. */
  lemma BarShape(symbol: string, rand: Random, day: int -> string, i: nat)
    ensures var b := BarAt(symbol, rand, day, i);
      b.close >= 0.1
      && b.high >= b.open && b.high >= b.close
      && b.low <= b.open && b.low <= b.close
      && (i == 0 ==> b.open == Start(symbol))
      && 50000 <= b.volume < 100000
  {
    var r := RawBar(symbol, rand, i);
    RawBarBounds(symbol, rand, i);
    assert Pow10(4) == 10000;
    FixedExact(0.1, 4, 1000);
    FixedMonotone(0.1, r.close, 4);
    FixedMonotone(r.open, r.high, 4);
    FixedMonotone(r.close, r.high, 4);
    FixedMonotone(r.low, r.open, 4);
    FixedMonotone(r.low, r.close, 4);
    if i == 0 {
      FixedExact(Start(symbol), 4, if symbol == "TRENDDOWN" then 500000 else 100000);
    }
    VolumeRange(rand(4 * i + 3));
  }

  /** Each bar opens at the rounded close of the bar before it. */
  lemma OpensAtPreviousClose(symbol: string, rand: Random, day: int -> string, i: nat)
    requires i > 0
    ensures BarAt(symbol, rand, day, i).open == BarAt(symbol, rand, day, i - 1).close
  {
    assert RawBar(symbol, rand, i - 1).close == RawBar(symbol, rand, i).open;
  }

  lemma VolumeRange(r: Draw)
    ensures 50000 <= (50000.0 + r * 50000.0).Floor < 100000
  {
    assert 50000.0 <= 50000.0 + r * 50000.0 < 100000.0;
  }

  // ---------------------------------------------------------------------
  // mockScreener

  datatype Pick = Pick(symbol: string, score: real, price: real, signal: int)

  predicate IsDigits(s: string) {
    forall j :: 0 <= j < |s| ==> '0' <= s[j] <= '9'
  }

  /** `String(k)`: the decimal digits of k. */
  function DigitsOf(k: nat): (s: string)
    ensures |s| >= 1 && IsDigits(s)
  {
    if k < 10 then [Digit(k)] else DigitsOf(k / 10) + [Digit(k % 10)]
  }

  function Digit(d: nat): (c: char)
    requires d < 10
    ensures '0' <= c <= '9'
  {
    (48 + d) as char
  }

  /** The number a string of decimal digits denotes. */
  function ValueOf(s: string): nat
    requires IsDigits(s)
  {
    if |s| == 0 then 0 else 10 * ValueOf(s[..|s| - 1]) + (s[|s| - 1] as int - 48)
  }

  /** Reading the digits back gives the number. */
  lemma {:induction false} DigitsReadBack(k: nat)
    ensures ValueOf(DigitsOf(k)) == k
  {
    if k >= 10 {
      DigitsReadBack(k / 10);
      var s := DigitsOf(k);
      assert s[..|s| - 1] == DigitsOf(k / 10);
    }
  }

  function Zeros(z: nat): (r: string)
    ensures |r| == z && IsDigits(r)
  {
    seq(z, _ => '0')
  }

  /** `padStart(3, '0')`: leading zeros up to three characters. */
  function PadStart3(s: string): (r: string)
    ensures |r| == if |s| >= 3 then |s| else 3
    ensures IsDigits(s) ==> IsDigits(r)
    decreases 3 - |s|
  {
    if |s| >= 3 then s else PadStart3("0" + s)
  }

  /** Padding only puts zeros in front. */
  lemma {:induction false} PadStart3Zeros(s: string)
    ensures PadStart3(s) == Zeros(|PadStart3(s)| - |s|) + s
    decreases 3 - |s|
  {
    if |s| < 3 {
      PadStart3Zeros("0" + s);
      var z := |PadStart3(s)| - |s|;
      assert Zeros(z - 1) + ("0" + s) == Zeros(z) + s;
    }
  }

  /** Leading zeros do not change a number. */
  lemma {:induction false} ZerosReadBack(z: nat, s: string)
    requires IsDigits(s)
    ensures ValueOf(Zeros(z) + s) == ValueOf(s)
    decreases |s|
  {
    var t := Zeros(z) + s;
    if |s| == 0 {
      ZerosValue(z);
      assert t == Zeros(z);
    } else {
      assert t[..|t| - 1] == Zeros(z) + s[..|s| - 1];
      ZerosReadBack(z, s[..|s| - 1]);
    }
  }

  lemma {:induction false} ZerosValue(z: nat)
    ensures ValueOf(Zeros(z)) == 0
  {
    if z > 0 {
      assert Zeros(z)[..z - 1] == Zeros(z - 1);
      ZerosValue(z - 1);
    }
  }

  /** The symbol of entry i: `SYM` and i + 1 padded to three digits. */
  function Name(i: nat): (s: string)
    ensures |s| >= 6 && s[..3] == "SYM" && IsDigits(s[3..])
  {
    var p := PadStart3(DigitsOf(i + 1));
    assert ("SYM" + p)[3..] == p;
    "SYM" + p
  }

  /** Every name's digits read back as its position plus one. */
  lemma NameReadsBack(i: nat)
    ensures ValueOf(Name(i)[3..]) == i + 1
  {
    var d := DigitsOf(i + 1);
    assert Name(i)[3..] == PadStart3(d);
    PaddedValue(d);
    DigitsReadBack(i + 1);
  }

  /** Padding does not change the number a digit string denotes. */
  lemma PaddedValue(d: string)
    requires IsDigits(d)
    ensures ValueOf(PadStart3(d)) == ValueOf(d)
  {
    PadStart3Zeros(d);
    ZerosReadBack(|PadStart3(d)| - |d|, d);
  }

  /** Below 999 entries every name is six characters long. */
  lemma NameLength(i: nat)
    requires i < 999
    ensures |Name(i)| == 6
  {
    DigitsShort(i + 1);
  }

  lemma {:induction false} DigitsShort(k: nat)
    requires k < 1000
    ensures |DigitsOf(k)| <= 3
  {
    if k >= 10 {
      DigitsShort(k / 10);
      if k >= 100 {
        DigitsShort(k / 100);
        assert (k / 10) / 10 == k / 100;
      } else {
        assert k / 10 < 10;
      }
    }
  }

  /** No two entries share a name. */
  lemma NamesDistinct(i: nat, j: nat)
    requires i != j
    ensures Name(i) != Name(j)
  {
    NameReadsBack(i);
    NameReadsBack(j);
  }

  /** `s.includes(sub)`. */
  function Includes(s: string, sub: string): bool
    decreases |s|
  {
    if |sub| > |s| then false else s[..|sub|] == sub || (|s| > 0 && Includes(s[1..], sub))
  }

  function PickBias(s: string): real {
    if Includes(s, "001") || Includes(s, "005") then 0.08 else if Includes(s, "013") then -0.06 else 0.0
  }

  /** `r > 0.66 ? 1 : r < 0.33 ? -1 : 0`. */
  function SignalOf(r: Draw): (sig: int)
    ensures sig in {-1, 0, 1}
    ensures sig == 1 <==> r > 0.66
    ensures sig == -1 <==> r < 0.33
  {
    if r > 0.66 then 1 else if r < 0.33 then -1 else 0
  }

  /** Entry i before sorting; it makes the draws 3i (score), 3i+1 (price)
      and 3i+2 (signal). */
  function PickAt(rand: Random, i: nat): Pick {
    var s := Name(i);
    Pick(s, Fixed((rand(3 * i) - 0.2) * 0.2 + PickBias(s), 4), Fixed(10.0 + rand(3 * i + 1) * 90.0, 2),
         SignalOf(rand(3 * i + 2)))
  }

  function Picks(rand: Random, n: nat): (r: seq<Pick>)
    ensures |r| == n && forall i :: 0 <= i < n ==> r[i] == PickAt(rand, i)
  {
    if n == 0 then [] else Picks(rand, n - 1) + [PickAt(rand, n - 1)]
  }

  ghost predicate SortedDesc(s: seq<Pick>) {
    forall i, j :: 0 <= i < j < |s| ==> s[i].score >= s[j].score
  }

  /** Inserting after every entry of at least its score: the stable place. */
  function Insert(p: Pick, s: seq<Pick>): (r: seq<Pick>)
    ensures multiset(r) == multiset(s) + multiset{p}
  {
    if |s| == 0 then [p]
    else if p.score > s[0].score then [p] + s
    else
      assert s == [s[0]] + s[1..];
      [s[0]] + Insert(p, s[1..])
  }

  lemma {:induction false} InsertSorted(p: Pick, s: seq<Pick>)
    requires SortedDesc(s)
    ensures SortedDesc(Insert(p, s))
  {
    if |s| > 0 && p.score <= s[0].score {
      var t := Insert(p, s[1..]);
      InsertSorted(p, s[1..]);
      forall q | q in t
        ensures s[0].score >= q.score
      {
        assert q in multiset(t);
        if q != p {
          assert q in multiset(s[1..]);
          var j :| 0 <= j < |s[1..]| && s[1..][j] == q;
          assert s[j + 1] == q;
        }
      }
      ConsSorted(s[0], t);
    }
  }

  lemma ConsSorted(x: Pick, t: seq<Pick>)
    requires SortedDesc(t) && forall q :: q in t ==> x.score >= q.score
    ensures SortedDesc([x] + t)
  {
    var r := [x] + t;
    forall i, j | 0 <= i < j < |r|
      ensures r[i].score >= r[j].score
    {
      assert r[j] == t[j - 1];
      if i == 0 {
        assert t[j - 1] in t;
      } else {
        assert r[i] == t[i - 1];
      }
    }
  }

  /** `sort((a, b) => b.score - a.score)`, which is stable. */
  function SortByScore(s: seq<Pick>): (r: seq<Pick>)
    ensures SortedDesc(r) && multiset(r) == multiset(s)
  {
    if |s| == 0 then []
    else
      var t := SortByScore(s[..|s| - 1]);
      InsertSorted(s[|s| - 1], t);
      LastSplit(s);
      Insert(s[|s| - 1], t)
  }

  lemma LastSplit(s: seq<Pick>)
    requires |s| > 0
    ensures multiset(s) == multiset(s[..|s| - 1]) + multiset{s[|s| - 1]}
  {
    assert s == s[..|s| - 1] + [s[|s| - 1]];
  }

  /** `mockScreener(n)`. */
  function Screener(rand: Random, n: nat): (r: seq<Pick>)
    ensures SortedDesc(r) && multiset(r) == multiset(Picks(rand, n))
  {
    SortByScore(Picks(rand, n))
  }

  /** n entries, best score first, the generated entries rearranged, each
      with a signal in {-1, 0, 1} and a price in [10, 100]. */
  lemma ScreenerShape(rand: Random, n: nat)
    ensures var r := Screener(rand, n);
      |r| == n && SortedDesc(r) && multiset(r) == multiset(Picks(rand, n))
      && forall p :: p in r ==> p.signal in {-1, 0, 1} && 10.0 <= p.price <= 100.0
  {
    var r := Screener(rand, n);
    var ps := Picks(rand, n);
    assert |r| == |multiset(r)| == |multiset(ps)| == n;
    forall p | p in r
      ensures p.signal in {-1, 0, 1} && 10.0 <= p.price <= 100.0
    {
      assert p in multiset(r);
      assert p in ps;
      var i :| 0 <= i < n && ps[i] == p;
      PickRange(rand, i);
    }
  }

  lemma PickRange(rand: Random, i: nat)
    ensures PickAt(rand, i).signal in {-1, 0, 1} && 10.0 <= PickAt(rand, i).price <= 100.0
  {
    PriceRange(rand(3 * i + 1));
  }

  lemma PriceRange(r: Draw)
    ensures 10.0 <= Fixed(10.0 + r * 90.0, 2) <= 100.0
  {
    assert Pow10(2) == 100;
    FixedExact(10.0, 2, 1000);
    FixedExact(100.0, 2, 10000);
    FixedMonotone(10.0, 10.0 + r * 90.0, 2);
    FixedMonotone(10.0 + r * 90.0, 100.0, 2);
  }

  // ---------------------------------------------------------------------
  // mockBacktest

  /** The series length of a mock back test. */
  const MockPoints := 120

  datatype Trade = Trade(index: int, side: string, price: real)

  datatype BacktestResult = BacktestResult(equity: seq<real>, cash: seq<real>, trades: seq<Trade>,
                                           ret: real, maxDrawdown: real, sharpe: real)

  const MockTrades := [Trade(10, "buy", 100.0), Trade(40, "sell", 110.0), Trade(60, "buy", 105.0),
                       Trade(95, "sell", 120.0)]

  /** The balance after i steps: from 100000, a move of
      `(Math.random() - 0.4) * 500` plus 50 after step 30, floored at 50000.
      Step i makes the draws 2i (equity) and 2i+1 (cash). */
  function EquityAfter(rand: Random, i: nat): (v: real)
    ensures 50000.0 <= v
  {
    if i == 0 then 100000.0
    else Max(50000.0, EquityAfter(rand, i - 1) + (rand(2 * (i - 1)) - 0.4) * 500.0 + (if i - 1 > 30 then 50.0 else 0.0))
  }

  /** The cash after i steps: a flow of `(Math.random() - 0.5) * 200`,
      floored at 20000. */
  function CashAfter(rand: Random, i: nat): (c: real)
    ensures 20000.0 <= c
  {
    if i == 0 then 100000.0 else Max(20000.0, CashAfter(rand, i - 1) + (rand(2 * (i - 1) + 1) - 0.5) * 200.0)
  }

  function EquityPoints(rand: Random, n: nat): (r: seq<real>)
    ensures |r| == n && forall i :: 0 <= i < n ==> r[i] == Fixed(EquityAfter(rand, i + 1), 2)
  {
    if n == 0 then [] else EquityPoints(rand, n - 1) + [Fixed(EquityAfter(rand, n), 2)]
  }

  function CashPoints(rand: Random, n: nat): (r: seq<real>)
    ensures |r| == n && forall i :: 0 <= i < n ==> r[i] == Fixed(CashAfter(rand, i + 1), 2)
  {
    if n == 0 then [] else CashPoints(rand, n - 1) + [Fixed(CashAfter(rand, n), 2)]
  }

  /** The result: after the 240 walk draws come 240 (drawdown) and 241 (Sharpe). */
  function BacktestOf(rand: Random): BacktestResult {
    var equity := EquityPoints(rand, MockPoints);
    BacktestResult(equity, CashPoints(rand, MockPoints), MockTrades,
                   GainOf(equity[MockPoints - 1]),
                   DrawdownOf(rand(2 * MockPoints)), SharpeOf(rand(2 * MockPoints + 1)))
  }

  /** `mockBacktest()`. */
  method MockBacktest(rand: Random) returns (res: BacktestResult)
    ensures res == BacktestOf(rand)
  {
    var equity, cash := Walk(rand);
    res := BacktestResult(equity, cash, MockTrades, GainOf(equity[|equity| - 1]),
                          DrawdownOf(rand(2 * MockPoints)), SharpeOf(rand(2 * MockPoints + 1)));
  }

  /** The loop of `mockBacktest`: both balances pushed, to cents, per step. */
  method Walk(rand: Random) returns (equity: seq<real>, cash: seq<real>)
    ensures equity == EquityPoints(rand, MockPoints) && cash == CashPoints(rand, MockPoints)
  {
    equity, cash := [], [];
    var v, c := 100000.0, 100000.0;
    for i := 0 to MockPoints
      invariant v == EquityAfter(rand, i) && c == CashAfter(rand, i)
      invariant equity == EquityPoints(rand, i) && cash == CashPoints(rand, i)
    {
      var rnd := (rand(2 * i) - 0.4) * 500.0;
      var cashFlow := (rand(2 * i + 1) - 0.5) * 200.0;
      c := Max(20000.0, c + cashFlow);
      v := Max(50000.0, v + rnd + (if i > 30 then 50.0 else 0.0));
      equity := equity + [Fixed(v, 2)];
      cash := cash + [Fixed(c, 2)];
    }
  }

  /** 120 points of each series, equity at least 50000 and cash at least
      20000 even after rounding, and the four fixed trades. */
  lemma BacktestShape(rand: Random)
    ensures var res := BacktestOf(rand);
      |res.equity| == MockPoints && |res.cash| == MockPoints
      && (forall i :: 0 <= i < MockPoints ==> res.equity[i] >= 50000.0 && res.cash[i] >= 20000.0)
      && res.trades == MockTrades
  {
    var res := BacktestOf(rand);
    var equity, cash := EquityPoints(rand, MockPoints), CashPoints(rand, MockPoints);
    assert res.equity == equity && res.cash == cash;
    forall i | 0 <= i < MockPoints
      ensures equity[i] >= 50000.0 && cash[i] >= 20000.0
    {
      PointFloors(rand, i + 1);
    }
  }

  /** `0.12 + Math.random() * 0.08`, to four decimals. */
  function DrawdownOf(r: Draw): real {
    Fixed(0.12 + r * 0.08, 4)
  }

  /** `Number((0.8 + Math.random() * 0.5).toFixed(2))`. */
  function SharpeOf(r: Draw): real {
    Fixed(0.8 + r * 0.5, 2)
  }

  /** `Number(((last - 100000) / 100000).toFixed(4))`: the return of the
      last balance over the starting 100000. */
  function GainOf(last: real): real {
    Fixed((last - 100000.0) / 100000.0, 4)
  }

  /** The reported return is not negative when the last balance is at
      least the starting 100000, and not positive when it is at most that. */
  lemma GainSign(last: real)
    ensures last >= 100000.0 ==> GainOf(last) >= 0.0
    ensures last <= 100000.0 ==> GainOf(last) <= 0.0
  {
    var r := (last - 100000.0) / 100000.0;
    FixedExact(0.0, 4, 0);
    if last >= 100000.0 {
      FixedMonotone(0.0, r, 4);
    }
    if last <= 100000.0 {
      FixedMonotone(r, 0.0, 4);
    }
  }

  /** Rounding to cents keeps the floors of the walk. */
  lemma PointFloors(rand: Random, i: nat)
    ensures Fixed(EquityAfter(rand, i), 2) >= 50000.0 && Fixed(CashAfter(rand, i), 2) >= 20000.0
  {
    assert Pow10(2) == 100;
    FixedExact(50000.0, 2, 5000000);
    FixedExact(20000.0, 2, 2000000);
    FixedMonotone(50000.0, EquityAfter(rand, i), 2);
    FixedMonotone(20000.0, CashAfter(rand, i), 2);
  }

  /** The fixed trades alternate buy and sell, starting with a buy, on
      strictly increasing bars of the 120. */
  lemma TradesAlternate()
    ensures forall i :: 0 <= i < |MockTrades| ==>
      MockTrades[i].side == (if i % 2 == 0 then "buy" else "sell") && 0 <= MockTrades[i].index < MockPoints
    ensures forall i, j :: 0 <= i < j < |MockTrades| ==> MockTrades[i].index < MockTrades[j].index
  {
  }
}
