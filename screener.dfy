/** The screener: every code's daily series of the last year is scored by
    the sum of its daily returns over a look-back window, labelled with the
    strategy's last signal, filtered by a minimum score and a wanted signal,
    and listed best score first. */
module Screener {
  import opened Common
  import opened Strategy
  import opened Ranking

  /** `screener.Request`. */
  datatype ScreenReq = ScreenReq(strategy: string, lookback: int, minScore: real, signal: int)

  /** `screener.Item`: the price is the last close in thousandths. */
  datatype ScreenItem = ScreenItem(symbol: string, score: real, price: int, signal: int)

  /** The strategy of a request: the registered one, or SMA 5/20 when the
      name is not registered. */
  function ScreenStrategy(strategies: map<string, Strategy>, name: string): (s: Strategy)
    requires Runnable(strategies)
    ensures name in strategies ==> s == strategies[name]
    ensures name !in strategies ==> s == SMA(5, 20)
    ensures Runs(s)
  {
    if name in strategies then strategies[name] else SMA(5, 20)
  }

  // ---------------------------------------------------------------------
  // The look-back window.

  /** The look-back in bars: the request's when it is between 1 and the last
      index, else 10. */
  function Lookback(lookback: int, last: int): (lb: int)
    ensures 0 < lookback <= last ==> lb == lookback
    ensures !(0 < lookback <= last) ==> lb == 10
    ensures lb > 0
  {
    if lookback <= 0 || lookback > last then 10 else lookback
  }

  /** The first bar whose move is scored: lb bars before the last, but
      never bar 0, which has no previous close. */
  function WindowStart(lookback: int, last: int): (start: int)
    ensures start >= 1
    ensures start == (if last - Lookback(lookback, last) < 1 then 1 else last - Lookback(lookback, last))
    ensures 0 < lookback <= last ==> last - start == lookback || start == 1
  {
    var s := last - Lookback(lookback, last);
    if s < 1 then 1 else s
  }

  /** The window [start, last] is never more than lb + 1 bars, and with a
      look-back the series can serve it holds exactly lb + 1 of them. */
  lemma WindowSize(lookback: int, last: int)
    requires last >= 1
    ensures var start := WindowStart(lookback, last);
      1 <= start <= last + 1
      && last - start + 1 <= Lookback(lookback, last) + 1
      && (0 < lookback < last ==> last - start + 1 == lookback + 1)
  {
  }

  // ---------------------------------------------------------------------
  // Daily returns.

  predicate PositiveCloses(ks: seq<Kline>) {
    forall i :: 0 <= i < |ks| ==> ks[i].close > 0
  }

  /** The store only yields series with positive closes; a zero close would
      make the source divide by zero. */
  ghost predicate StoresPositiveCloses(m: Market, from: int, to: int) {
    forall c :: m.klines(c, from, to).Ok? ==> PositiveCloses(m.klines(c, from, to).value)
  }

  function Abs(x: int): nat {
    if x < 0 then -x else x
  }

  /** Go's `/` on integers: the quotient truncated toward zero. */
  function Quo(a: int, b: int): (q: int)
    requires b != 0
    ensures Abs(a) < Abs(b) ==> q == 0
    ensures 0 <= a && 0 < b ==> q == a / b
    ensures (a < 0) == (b < 0) ==> q >= 0
  {
    var q := Abs(a) / Abs(b);
    if Abs(a) < Abs(b) then QuotientOfSmaller(Abs(a), Abs(b)); 0
    else if (a < 0) != (b < 0) then -q else q
  }

  lemma QuotientOfSmaller(x: nat, y: nat)
    requires x < y
    ensures x / y == 0
  {
  }

  /** The move of one bar as the screener writes it: the price difference
      divided by the previous price in `Price` arithmetic, then converted to
      a float. */
  function MoveAsWritten(prev: int, cur: int): real
    requires prev != 0
  {
    PriceFloat(Quo(cur - prev, prev))
  }

  /** The simple return of one bar: the fraction by which the close moved. */
  function Move(prev: int, cur: int): (r: real)
    requires prev != 0
    ensures prev as real * (1.0 + r) == cur as real
    ensures 0 < prev ==> (r > 0.0 <==> cur > prev) && (r < 0.0 <==> cur < prev)
  {
    var r := (cur - prev) as real / prev as real;
    DivMul((cur - prev) as real, prev as real);
    r
  }

  /** The sum of the moves of bars lo .. hi - 1. */
  function Moves(ks: seq<Kline>, lo: int, hi: int): real
    requires 1 <= lo <= hi <= |ks| && PositiveCloses(ks)
    decreases hi - lo
  {
    if lo == hi then 0.0 else Moves(ks, lo, hi - 1) + Move(ks[hi - 2].close, ks[hi - 1].close)
  }

  function MovesAsWritten(ks: seq<Kline>, lo: int, hi: int): real
    requires 1 <= lo <= hi <= |ks| && PositiveCloses(ks)
    decreases hi - lo
  {
    if lo == hi then 0.0 else MovesAsWritten(ks, lo, hi - 1) + MoveAsWritten(ks[hi - 2].close, ks[hi - 1].close)
  }

  /** A series whose closes never fall scores at least 0, and one whose
      closes never move scores exactly 0. */
  lemma {:induction false} MovesOfRisingSeries(ks: seq<Kline>, lo: int, hi: int)
    requires 1 <= lo <= hi <= |ks| && PositiveCloses(ks)
    requires forall i :: lo <= i < hi ==> ks[i - 1].close <= ks[i].close
    ensures Moves(ks, lo, hi) >= 0.0
    ensures (forall i :: lo <= i < hi ==> ks[i - 1].close == ks[i].close) ==> Moves(ks, lo, hi) == 0.0
    decreases hi - lo
  {
    if lo < hi {
      MovesOfRisingSeries(ks, lo, hi - 1);
      var r := Move(ks[hi - 2].close, ks[hi - 1].close);
      assert r >= 0.0;
    }
  }

  /** With truncating division every bar that moves by less than 100% either
      way contributes nothing to the score as written. */
  lemma SmallMovesVanishAsWritten(prev: int, cur: int)
    requires 0 < prev && 0 < cur < 2 * prev
    ensures MoveAsWritten(prev, cur) == 0.0
  {
    assert Abs(cur - prev) < Abs(prev);
  }

  /** As written, closes that never fall score at least 0, and a window in
      which no close reaches double the one before it scores exactly 0:
      only a bar that doubles its price moves the score up. */
  lemma {:induction false} MovesAsWrittenBounds(ks: seq<Kline>, lo: int, hi: int)
    requires 1 <= lo <= hi <= |ks| && PositiveCloses(ks)
    ensures (forall i :: lo <= i < hi ==> ks[i - 1].close <= ks[i].close) ==> MovesAsWritten(ks, lo, hi) >= 0.0
    ensures (forall i :: lo <= i < hi ==> ks[i].close < 2 * ks[i - 1].close) ==> MovesAsWritten(ks, lo, hi) == 0.0
    decreases hi - lo
  {
    if lo < hi {
      MovesAsWrittenBounds(ks, lo, hi - 1);
      var prev, cur := ks[hi - 2].close, ks[hi - 1].close;
      assert Quo(cur - prev, prev) >= 0 <== cur >= prev;
      if cur < 2 * prev {
        SmallMovesVanishAsWritten(prev, cur);
      }
    }
  }

  /** The score as written of the closes 10.000 and 10.500: 0 instead of the
      5% the two bars rose. */
  lemma ScoreAsWrittenCounterexample()
    ensures var ks := [Kline(0, 10000, 10000, 10000, 10000, 0, 0), Kline(86400, 10500, 10500, 10500, 10500, 0, 0)];
      PositiveCloses(ks) && MovesAsWritten(ks, 1, 2) == 0.0 && Moves(ks, 1, 2) == 0.05
  {
    var ks := [Kline(0, 10000, 10000, 10000, 10000, 0, 0), Kline(86400, 10500, 10500, 10500, 10500, 0, 0)];
    SmallMovesVanishAsWritten(10000, 10500);
    assert MovesAsWritten(ks, 1, 2) == MovesAsWritten(ks, 1, 1) + MoveAsWritten(10000, 10500);
    assert Moves(ks, 1, 2) == Moves(ks, 1, 1) + Move(10000, 10500);
  }

  // ---------------------------------------------------------------------
  // One code and the whole run.

  /** What the screener does with one read series: skipped when empty,
      otherwise scored and labelled, then kept only if it passes both
      filters. */
  function Candidate(ks: seq<Kline>, strat: Strategy, req: ScreenReq, code: string): (o: Option<ScreenItem>)
    requires Runs(strat) && PositiveCloses(ks)
    ensures |ks| == 0 ==> o.None?
    ensures o.Some? ==> o.value.symbol == code && o.value.price == ks[|ks| - 1].close
    ensures o.Some? ==>
              (req.minScore != 0.0 ==> o.value.score >= req.minScore) &&
              (req.signal != 0 ==> o.value.signal == req.signal)
  {
    if |ks| == 0 then None
    else
      var item := Scored(ks, strat, req, code);
      if req.minScore != 0.0 && item.score < req.minScore then None
      else if req.signal != 0 && item.signal != req.signal then None
      else Some(item)
  }

  /** The item of a non-empty series before the filters: the summed moves
      of the lookback window as the screener computes them, the last close
      and the last signal. */
  function Scored(ks: seq<Kline>, strat: Strategy, req: ScreenReq, code: string): (item: ScreenItem)
    requires Runs(strat) && PositiveCloses(ks) && |ks| > 0
  {
    var last := |ks| - 1;
    var start := WindowStart(req.lookback, last);
    var score := if start <= last then MovesAsWritten(ks, start, last + 1) else 0.0;
    SignalsShape(strat, ks);
    ScreenItem(code, score, ks[last].close, SignalsOf(strat, ks)[last])
  }

  /** The kept items of the first i codes in code order, or the error of the
      first code whose series could not be read. */
  function Screened(m: Market, from: int, to: int, strat: Strategy, req: ScreenReq, i: int): (r: Result<seq<ScreenItem>>)
    requires Runs(strat) && StoresPositiveCloses(m, from, to) && 0 <= i <= |m.codes|
  {
    if i == 0 then Ok([])
    else
      match Screened(m, from, to, strat, req, i - 1)
      case Err(msg) => Err(msg)
      case Ok(prev) =>
        match m.klines(m.codes[i - 1], from, to)
        case Err(msg) => Err(msg)
        case Ok(ks) =>
          var o := Candidate(ks, strat, req, m.codes[i - 1]);
          Ok(prev + if o.Some? then [o.value] else [])
  }

  /** One code more, once the codes before it were all read. */
  lemma ScreenedStep(m: Market, from: int, to: int, strat: Strategy, req: ScreenReq, i: int, out: seq<ScreenItem>)
    requires Runs(strat) && StoresPositiveCloses(m, from, to) && 0 <= i < |m.codes|
    requires Screened(m, from, to, strat, req, i) == Ok(out)
    ensures m.klines(m.codes[i], from, to).Err? ==>
      Screened(m, from, to, strat, req, i + 1) == Err(m.klines(m.codes[i], from, to).msg)
    ensures m.klines(m.codes[i], from, to).Ok? ==>
      var o := Candidate(m.klines(m.codes[i], from, to).value, strat, req, m.codes[i]);
      Screened(m, from, to, strat, req, i + 1) == Ok(out + if o.Some? then [o.value] else [])
  {
  }

  /** Once a read fails the run's result is that error, whatever the later
      codes hold. */
  lemma {:induction false} ErrorSticks(m: Market, from: int, to: int, strat: Strategy, req: ScreenReq, i: int, j: int)
    requires Runs(strat) && StoresPositiveCloses(m, from, to) && 0 <= i <= j <= |m.codes|
    requires Screened(m, from, to, strat, req, i).Err?
    ensures Screened(m, from, to, strat, req, j) == Screened(m, from, to, strat, req, i)
    decreases j
  {
    if i < j {
      ErrorSticks(m, from, to, strat, req, i, j - 1);
    }
  }

  /** A code whose series cannot be read aborts the run: the result is the
      first such code's error. */
  lemma ReadErrorAborts(m: Market, from: int, to: int, strat: Strategy, req: ScreenReq, q: int)
    requires Runs(strat) && StoresPositiveCloses(m, from, to) && 0 <= q < |m.codes|
    requires Screened(m, from, to, strat, req, q).Ok? && m.klines(m.codes[q], from, to).Err?
    ensures Screened(m, from, to, strat, req, |m.codes|) == Err(m.klines(m.codes[q], from, to).msg)
  {
    ScreenedStep(m, from, to, strat, req, q, Screened(m, from, to, strat, req, q).value);
    ErrorSticks(m, from, to, strat, req, q + 1, |m.codes|);
  }

  /** Every listed item passes both filters and comes from a listed code. */
  lemma {:induction false} ScreenedItemsPassFilters(m: Market, from: int, to: int, strat: Strategy, req: ScreenReq, i: int)
    requires Runs(strat) && StoresPositiveCloses(m, from, to) && 0 <= i <= |m.codes|
    requires Screened(m, from, to, strat, req, i).Ok?
    ensures forall it :: it in Screened(m, from, to, strat, req, i).value ==>
      it.symbol in m.codes[..i]
      && (req.minScore != 0.0 ==> it.score >= req.minScore)
      && (req.signal != 0 ==> it.signal == req.signal)
  {
    if i > 0 {
      ScreenedItemsPassFilters(m, from, to, strat, req, i - 1);
      var prev := Screened(m, from, to, strat, req, i - 1).value;
      var code := m.codes[i - 1];
      ScreenedStep(m, from, to, strat, req, i - 1, prev);
      var o := Candidate(m.klines(code, from, to).value, strat, req, code);
      assert Screened(m, from, to, strat, req, i) == Ok(prev + if o.Some? then [o.value] else []);
      AppendPassing(prev, o, m.codes, i, req);
    }
  }

  /** Passing items from the codes before the last, and a passing item of
      the last code, pass together. */
  lemma AppendPassing(prev: seq<ScreenItem>, o: Option<ScreenItem>, codes: seq<string>, n: int, req: ScreenReq)
    requires 0 < n <= |codes|
    requires forall it :: it in prev ==>
      it.symbol in codes[..n - 1]
      && (req.minScore != 0.0 ==> it.score >= req.minScore)
      && (req.signal != 0 ==> it.signal == req.signal)
    requires o.Some? ==>
      (o.value.symbol == codes[n - 1]
       && (req.minScore != 0.0 ==> o.value.score >= req.minScore)
       && (req.signal != 0 ==> o.value.signal == req.signal))
    ensures forall it :: it in prev + (if o.Some? then [o.value] else []) ==>
      it.symbol in codes[..n]
      && (req.minScore != 0.0 ==> it.score >= req.minScore)
      && (req.signal != 0 ==> it.signal == req.signal)
  {
    assert codes[..n] == codes[..n - 1] + [codes[n - 1]];
  }

  function Score(it: ScreenItem): real {
    it.score
  }

  /** The return loop of `Run`: the sum of the moves of bars start..last,
      each the truncated `Price` quotient converted to a float. */
  method SumReturns(ks: seq<Kline>, start: int) returns (ret: real)
    requires 1 <= start && PositiveCloses(ks)
    ensures ret == if start <= |ks| then MovesAsWritten(ks, start, |ks|) else 0.0
  {
    ret := 0.0;
    var i := start;
    while i < |ks|
      invariant start <= i && (start <= |ks| ==> i <= |ks|)
      invariant ret == if start <= |ks| then MovesAsWritten(ks, start, i) else 0.0
      decreases |ks| - i
    {
      var prev := ks[i - 1].close;
      var d := Quo(ks[i].close - prev, prev);
      assert MovesAsWritten(ks, start, i + 1) == MovesAsWritten(ks, start, i) + PriceFloat(d);
      ret := ret + PriceFloat(d);
      i := i + 1;
    }
  }

  /** One code of `Run`, given its read series. */
  method Visit(ks: seq<Kline>, strat: Strategy, req: ScreenReq, code: string) returns (o: Option<ScreenItem>)
    requires Runs(strat) && PositiveCloses(ks)
    ensures o == Candidate(ks, strat, req, code)
  {
    if |ks| == 0 {
      return None;
    }
    var sigs := Signals(strat, ks);
    SignalsShape(strat, ks);
    var last := |ks| - 1;
    var lb := req.lookback;
    if lb <= 0 || lb > last {
      lb := 10;
    }
    var start := last - lb;
    if start < 1 {
      start := 1;
    }
    assert start == WindowStart(req.lookback, last);
    var ret := SumReturns(ks, start);
    assert ret == if start <= last then MovesAsWritten(ks, start, last + 1) else 0.0;
    var item := ScreenItem(code, ret, ks[last].close, sigs[last]);
    ghost var want := Scored(ks, strat, req, code);
    assert want.score == ret && want.signal == sigs[last];
    if req.minScore != 0.0 && item.score < req.minScore {
      return None;
    }
    if req.signal != 0 && item.signal != req.signal {
      return None;
    }
    o := Some(item);
  }

  /** `screener.Run`, with the one-year window [from, to] given: the kept
      items of every code, best score first, or the first read error. */
  method Run(req: ScreenReq, reg: Registry, m: Market, from: int, to: int) returns (r: Result<seq<ScreenItem>>)
    requires Runnable(reg.strategies) && StoresPositiveCloses(m, from, to)
    ensures var strat := ScreenStrategy(reg.strategies, req.strategy);
      match Screened(m, from, to, strat, req, |m.codes|)
      case Err(msg) => r == Err(msg)
      case Ok(items) => r.Ok? && SortedBy(r.value, Score) && multiset(r.value) == multiset(items)
  {
    var strat := ScreenStrategy(reg.strategies, req.strategy);
    var kept := VisitAll(strat, req, m, from, to);
    if kept.Err? {
      return Err(kept.msg);
    }
    var out := kept.value;
    var a := new ScreenItem[|out|](j requires 0 <= j < |out| => out[j]);
    assert a[..] == out;
    SortDescending(a, Score);
    r := Ok(a[..]);
  }

  /** The loop of `Run` over the codes, in order: the kept items, or the
      error of the first code whose series could not be read. */
  method VisitAll(strat: Strategy, req: ScreenReq, m: Market, from: int, to: int) returns (r: Result<seq<ScreenItem>>)
    requires Runs(strat) && StoresPositiveCloses(m, from, to)
    ensures r == Screened(m, from, to, strat, req, |m.codes|)
  {
    var out: seq<ScreenItem> := [];
    for i := 0 to |m.codes|
      invariant Screened(m, from, to, strat, req, i) == Ok(out)
    {
      var code := m.codes[i];
      var fetched := m.klines(code, from, to);
      ScreenedStep(m, from, to, strat, req, i, out);
      if fetched.Err? {
        ReadErrorAborts(m, from, to, strat, req, i);
        return Err(fetched.msg);
      }
      var o := Visit(fetched.value, strat, req, code);
      if o.Some? {
        out := out + [o.value];
      } else {
        assert out + [] == out;
      }
    }
    r := Ok(out);
  }
}
