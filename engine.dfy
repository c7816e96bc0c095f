/** The back-test engine: it replays a strategy's signals over a daily series,
    one long position of a fixed size at a time, with fees, slippage, stop-loss
    and take-profit, and reports the equity curve, the trades, the total
    return, the maximum drawdown and the Sharpe ratio. */
module Engine {
  import opened Common
  import opened Strategy

  datatype Trade = Trade(time: int, index: int, price: real, side: string, qty: int)

  /** `engine.Result`. */
  datatype BacktestResult = BacktestResult(
    equity: seq<real>, cash: seq<real>, position: seq<int>, trades: seq<Trade>,
    ret: real, maxDD: real, sharpe: Float)

  datatype Settings = Settings(
    cash: real, size: int, feeRate: real, minFee: real,
    slippage: real, stopLoss: real, takeProfit: real)

  /** The loop's running state: position, cash balance, entry price, trades. */
  datatype Account = Account(pos: int, eq: real, entry: real, trades: seq<Trade>)

  function Start(cfg: Settings): Account {
    Account(0, cfg.cash, 0.0, [])
  }

  /** The commission on a trade of the given value, floored at the minimum. */
  function Fee(amount: real, cfg: Settings): (fee: real)
    ensures fee >= cfg.minFee && fee >= amount * cfg.feeRate
    ensures fee == cfg.minFee || fee == amount * cfg.feeRate
  {
    if amount * cfg.feeRate < cfg.minFee then cfg.minFee else amount * cfg.feeRate
  }

  function BuyPx(k: Kline, cfg: Settings): real {
    PriceFloat(k.close) * (1.0 + cfg.slippage)
  }

  function SellPx(k: Kline, cfg: Settings): real {
    PriceFloat(k.close) * (1.0 - cfg.slippage)
  }

  /** Filling the buy order of bar i costs this much before the fee. */
  function Cost(k: Kline, cfg: Settings): real {
    BuyPx(k, cfg) * cfg.size as real
  }

  /** Selling the whole position at bar i. */
  function Exit(a: Account, k: Kline, i: int, cfg: Settings): Account {
    var px := SellPx(k, cfg);
    var proceeds := px * a.pos as real;
    Account(0, a.eq + (proceeds - Fee(proceeds, cfg)), 0.0, a.trades + [Trade(k.time, i, px, "sell", a.pos)])
  }

  /** The stop-loss condition: the sell price has fallen by the stop fraction
      or more below the entry. */
  predicate StopHit(a: Account, k: Kline, cfg: Settings) {
    cfg.stopLoss > 0.0 && a.entry > 0.0 && (SellPx(k, cfg) - a.entry) / a.entry <= -cfg.stopLoss
  }

  /** The take-profit condition on a still-open position. */
  predicate TargetHit(a: Account, k: Kline, cfg: Settings) {
    cfg.takeProfit > 0.0 && a.entry > 0.0 && a.pos > 0 && (SellPx(k, cfg) - a.entry) / a.entry >= cfg.takeProfit
  }

  /** Without a sell signal, an open position is checked against the stop and
      then, if still open, against the target. */
  function Protect(a: Account, k: Kline, i: int, cfg: Settings): Account {
    var a1 := if StopHit(a, k, cfg) then Exit(a, k, i, cfg) else a;
    if TargetHit(a1, k, cfg) then Exit(a1, k, i, cfg) else a1
  }

  function Buy(a: Account, k: Kline, i: int, cfg: Settings): Account {
    var cost := Cost(k, cfg);
    Account(a.pos + cfg.size, a.eq - (cost + Fee(cost, cfg)), BuyPx(k, cfg),
            a.trades + [Trade(k.time, i, BuyPx(k, cfg), "buy", cfg.size)])
  }

  /** What bar i with signal s does to the account. */
  function Step(a: Account, k: Kline, i: int, s: int, cfg: Settings): Account {
    if s == 1 && a.pos == 0 then
      var cost := Cost(k, cfg);
      if a.eq >= cost + Fee(cost, cfg) then Buy(a, k, i, cfg) else a
    else if s == -1 && a.pos > 0 then Exit(a, k, i, cfg)
    else if a.pos > 0 then Protect(a, k, i, cfg)
    else a
  }

  /** The account after the first i bars. */
  function Replay(ks: seq<Kline>, sigs: seq<int>, cfg: Settings, i: int): Account
    requires |sigs| == |ks| && 0 <= i <= |ks|
  {
    if i == 0 then Start(cfg) else Step(Replay(ks, sigs, cfg, i - 1), ks[i - 1], i - 1, sigs[i - 1], cfg)
  }

  /** Cash plus the position valued at the close. */
  function Mtm(a: Account, k: Kline): real {
    a.eq + a.pos as real * PriceFloat(k.close)
  }

  /** The marked-to-market equity of the first i bars. */
  function EquityUpTo(ks: seq<Kline>, sigs: seq<int>, cfg: Settings, i: int): (r: seq<real>)
    requires |sigs| == |ks| && 0 <= i <= |ks|
    ensures |r| == i
  {
    if i == 0 then [] else EquityUpTo(ks, sigs, cfg, i - 1) + [Mtm(Replay(ks, sigs, cfg, i), ks[i - 1])]
  }

  /** The cash balance after each of the first i bars. */
  function CashUpTo(ks: seq<Kline>, sigs: seq<int>, cfg: Settings, i: int): (r: seq<real>)
    requires |sigs| == |ks| && 0 <= i <= |ks|
    ensures |r| == i
  {
    if i == 0 then [] else CashUpTo(ks, sigs, cfg, i - 1) + [Replay(ks, sigs, cfg, i).eq]
  }

  /** The position after each of the first i bars. */
  function PositionUpTo(ks: seq<Kline>, sigs: seq<int>, cfg: Settings, i: int): (r: seq<int>)
    requires |sigs| == |ks| && 0 <= i <= |ks|
    ensures |r| == i
  {
    if i == 0 then [] else PositionUpTo(ks, sigs, cfg, i - 1) + [Replay(ks, sigs, cfg, i).pos]
  }

  /** Entry j of the three series is the account after bar j. */
  lemma {:induction false} SeriesAt(ks: seq<Kline>, sigs: seq<int>, cfg: Settings, i: int, j: int)
    requires |sigs| == |ks| && 0 <= j < i <= |ks|
    ensures CashUpTo(ks, sigs, cfg, i)[j] == Replay(ks, sigs, cfg, j + 1).eq
    ensures PositionUpTo(ks, sigs, cfg, i)[j] == Replay(ks, sigs, cfg, j + 1).pos
    ensures EquityUpTo(ks, sigs, cfg, i)[j] == Mtm(Replay(ks, sigs, cfg, j + 1), ks[j])
    decreases i
  {
    if j < i - 1 {
      SeriesAt(ks, sigs, cfg, i - 1, j);
    }
  }

  // ---------------------------------------------------------------------
  // What one bar can do.

  /** A buy happens exactly when the signal is 1, the account is flat and
      the cash covers the cost and the fee; it opens a position of the
      configured size at the slipped buy price. */
  lemma BuyRule(a: Account, k: Kline, i: int, s: int, cfg: Settings)
    ensures var b := Step(a, k, i, s, cfg);
      (|b.trades| > |a.trades| && b.trades[|b.trades| - 1].side == "buy")
      <==> s == 1 && a.pos == 0 && a.eq >= Cost(k, cfg) + Fee(Cost(k, cfg), cfg)
    ensures s == 1 && a.pos == 0 && a.eq >= Cost(k, cfg) + Fee(Cost(k, cfg), cfg) ==>
      Step(a, k, i, s, cfg) == Account(cfg.size, a.eq - Cost(k, cfg) - Fee(Cost(k, cfg), cfg), BuyPx(k, cfg),
                                       a.trades + [Trade(k.time, i, BuyPx(k, cfg), "buy", cfg.size)])
  {
    assert "buy" != "sell" by { assert "buy"[0] != "sell"[0]; }
  }

  /** A sell signal on an open position closes all of it at the slipped sell
      price. */
  lemma SellRule(a: Account, k: Kline, i: int, s: int, cfg: Settings)
    requires s == -1 && a.pos > 0
    ensures Step(a, k, i, s, cfg).pos == 0
    ensures Step(a, k, i, s, cfg).trades == a.trades + [Trade(k.time, i, SellPx(k, cfg), "sell", a.pos)]
  {
  }

  /** Without a sell signal, an open position that hits the stop or the target
      is closed at the slipped sell price; one that hits neither is kept and
      nothing changes. */
  lemma ProtectRule(a: Account, k: Kline, i: int, s: int, cfg: Settings)
    requires a.pos > 0 && s != -1
    ensures StopHit(a, k, cfg) || TargetHit(a, k, cfg) ==>
      Step(a, k, i, s, cfg).pos == 0 &&
      Step(a, k, i, s, cfg).trades == a.trades + [Trade(k.time, i, SellPx(k, cfg), "sell", a.pos)]
    ensures !StopHit(a, k, cfg) && !TargetHit(a, k, cfg) ==> Step(a, k, i, s, cfg) == a
  {
  }

  /** A bar adds at most one trade, stamped with that bar; a bar that adds
      none leaves the account as it was. */
  lemma AtMostOneTradePerBar(a: Account, k: Kline, i: int, s: int, cfg: Settings)
    ensures var b := Step(a, k, i, s, cfg);
      (b == a) ||
      (|b.trades| == |a.trades| + 1 && b.trades[..|a.trades|] == a.trades &&
       b.trades[|a.trades|].index == i && b.trades[|a.trades|].time == k.time)
  {
    var b := Step(a, k, i, s, cfg);
    if !(s == 1 && a.pos == 0) && !(s == -1 && a.pos > 0) && a.pos > 0 && StopHit(a, k, cfg) {
      var a1 := Exit(a, k, i, cfg);
      assert !TargetHit(a1, k, cfg);
      assert b == a1;
    }
  }

  /** With no slippage and a positive minimum fee, every trade lowers the
      marked-to-market value of the bar by at least the minimum fee. */
  lemma TradesCostTheFee(a: Account, k: Kline, i: int, s: int, cfg: Settings)
    requires cfg.slippage == 0.0 && cfg.minFee > 0.0
    ensures var b := Step(a, k, i, s, cfg);
      b != a ==> Mtm(b, k) <= Mtm(a, k) - cfg.minFee
  {
    var b := Step(a, k, i, s, cfg);
    var px := PriceFloat(k.close);
    assert BuyPx(k, cfg) == px && SellPx(k, cfg) == px;
    if b != a {
      if s == 1 && a.pos == 0 {
        var cost := Cost(k, cfg);
        assert b == Buy(a, k, i, cfg);
        assert Mtm(b, k) == a.eq - (cost + Fee(cost, cfg)) + cfg.size as real * px;
        assert cost == px * cfg.size as real;
      } else {
        assert Mtm(Exit(a, k, i, cfg), k) == a.eq + px * a.pos as real - Fee(px * a.pos as real, cfg);
        if !(s == -1 && a.pos > 0) && StopHit(a, k, cfg) {
          assert !TargetHit(Exit(a, k, i, cfg), k, cfg);
        }
      }
    }
  }

  // ---------------------------------------------------------------------
  // What a whole replay keeps.

  /** The position is always flat or exactly one lot of the configured size. */
  lemma {:induction false} PositionFlatOrOneLot(ks: seq<Kline>, sigs: seq<int>, cfg: Settings, i: int)
    requires |sigs| == |ks| && 0 <= i <= |ks|
    ensures Replay(ks, sigs, cfg, i).pos == 0 || Replay(ks, sigs, cfg, i).pos == cfg.size
  {
    if i > 0 {
      PositionFlatOrOneLot(ks, sigs, cfg, i - 1);
      var a := Replay(ks, sigs, cfg, i - 1);
      var k := ks[i - 1];
      if !(sigs[i - 1] == 1 && a.pos == 0) && !(sigs[i - 1] == -1 && a.pos > 0) && a.pos > 0 && StopHit(a, k, cfg) {
        assert !TargetHit(Exit(a, k, i - 1, cfg), k, cfg);
      }
    }
  }

  /** The trade log of a replay with a positive lot size: buys and sells
      alternate starting with a buy, every trade is of one lot, the bar
      indices strictly increase and stay below i, each trade carries its bar's
      time, and the position is open exactly when the log ends with a buy. */
  ghost predicate WellFormedLog(ks: seq<Kline>, a: Account, cfg: Settings, i: int)
    requires 0 <= i <= |ks|
  {
    var ts := a.trades;
    (forall j :: 0 <= j < |ts| ==> ts[j].side == (if j % 2 == 0 then "buy" else "sell"))
    && (forall j :: 0 <= j < |ts| ==> ts[j].qty == cfg.size)
    && (forall j :: 0 <= j < |ts| ==> 0 <= ts[j].index < i && ts[j].time == ks[ts[j].index].time)
    && (forall j, l :: 0 <= j < l < |ts| ==> ts[j].index < ts[l].index)
    && (a.pos == cfg.size <==> |ts| % 2 == 1)
    && (a.pos == 0 <==> |ts| % 2 == 0)
  }

  /** Appending the bar-i trade of the right side and size keeps the log
      well formed. */
  lemma {:induction false} AppendToLog(ks: seq<Kline>, a: Account, b: Account, cfg: Settings, i: int)
    requires 0 <= i < |ks| && WellFormedLog(ks, a, cfg, i)
    requires |b.trades| == |a.trades| + 1 && b.trades[..|a.trades|] == a.trades
    requires var t := b.trades[|a.trades|];
      t.index == i && t.time == ks[i].time && t.qty == cfg.size &&
      t.side == (if |a.trades| % 2 == 0 then "buy" else "sell")
    requires b.pos == cfg.size <==> |b.trades| % 2 == 1
    requires b.pos == 0 <==> |b.trades| % 2 == 0
    ensures WellFormedLog(ks, b, cfg, i + 1)
  {
    var n, ts, us := |a.trades|, a.trades, b.trades;
    forall j | 0 <= j < n
      ensures us[j] == ts[j]
    {
      assert us[..n][j] == us[j];
    }
    forall j, l | 0 <= j < l < |us|
      ensures us[j].index < us[l].index
    {
      if l == n {
        assert us[j].index == ts[j].index < i;
      }
    }
    forall j | 0 <= j < |us|
      ensures 0 <= us[j].index < i + 1 && us[j].time == ks[us[j].index].time
    {
    }
  }

  /** One bar keeps the log well formed. */
  lemma {:induction false} StepKeepsLog(ks: seq<Kline>, a: Account, b: Account, s: int, cfg: Settings, i: int)
    requires 0 <= i < |ks| && cfg.size > 0 && WellFormedLog(ks, a, cfg, i)
    requires a.pos == 0 || a.pos == cfg.size
    requires b == Step(a, ks[i], i, s, cfg)
    ensures WellFormedLog(ks, b, cfg, i + 1)
  {
    var k := ks[i];
    AtMostOneTradePerBar(a, k, i, s, cfg);
    if b != a {
      if s == 1 && a.pos == 0 {
        assert b == Buy(a, k, i, cfg);
      } else {
        if !(s == -1 && a.pos > 0) && StopHit(a, k, cfg) {
          assert !TargetHit(Exit(a, k, i, cfg), k, cfg);
        }
        assert b == Exit(a, k, i, cfg);
      }
      AppendToLog(ks, a, b, cfg, i);
    }
  }

  lemma {:induction false} TradeLogWellFormed(ks: seq<Kline>, sigs: seq<int>, cfg: Settings, i: int)
    requires |sigs| == |ks| && 0 <= i <= |ks| && cfg.size > 0
    ensures WellFormedLog(ks, Replay(ks, sigs, cfg, i), cfg, i)
  {
    if i > 0 {
      TradeLogWellFormed(ks, sigs, cfg, i - 1);
      PositionFlatOrOneLot(ks, sigs, cfg, i - 1);
      StepKeepsLog(ks, Replay(ks, sigs, cfg, i - 1), Replay(ks, sigs, cfg, i), sigs[i - 1], cfg, i - 1);
    }
  }

  /** A replay whose signals are all 0 never trades: every bar's account is
      the starting one. */
  lemma {:induction false} SilentSignalsNeverTrade(ks: seq<Kline>, sigs: seq<int>, cfg: Settings, i: int)
    requires |sigs| == |ks| && 0 <= i <= |ks|
    requires forall j :: 0 <= j < |sigs| ==> sigs[j] == 0
    ensures Replay(ks, sigs, cfg, i) == Start(cfg)
  {
    if i > 0 {
      SilentSignalsNeverTrade(ks, sigs, cfg, i - 1);
    }
  }

  // ---------------------------------------------------------------------
  // Metrics.

  /** Bar-over-bar returns of the equity curve, one fewer than the values. */
  function Rets(eqs: seq<real>): (r: seq<Float>)
    ensures |r| == if |eqs| == 0 then 0 else |eqs| - 1
  {
    if |eqs| <= 1 then []
    else Rets(eqs[..|eqs| - 1]) + [FDiv(Finite(eqs[|eqs| - 1] - eqs[|eqs| - 2]), Finite(eqs[|eqs| - 2]))]
  }

  /** Appending a value appends its return over the previous one. */
  lemma {:induction false} RetsLast(eqs: seq<real>, x: real)
    requires |eqs| > 0
    ensures Rets(eqs + [x]) == Rets(eqs) + [FDiv(Finite(x - eqs[|eqs| - 1]), Finite(eqs[|eqs| - 1]))]
  {
    var e := eqs + [x];
    assert e[..|e| - 1] == eqs;
    assert e[|e| - 1] == x && e[|e| - 2] == eqs[|eqs| - 1];
  }

  /** Return j is the change from value j to value j + 1 over value j; a zero
      value makes the float64 division NaN or infinite. */
  lemma {:induction false} RetsAt(eqs: seq<real>, j: int)
    requires 0 <= j < |eqs| - 1
    ensures Rets(eqs)[j] == FDiv(Finite(eqs[j + 1] - eqs[j]), Finite(eqs[j]))
    ensures Rets(eqs)[j].Finite? <==> eqs[j] != 0.0
    decreases |eqs|
  {
    var front := eqs[..|eqs| - 1];
    if j < |eqs| - 2 {
      RetsAt(front, j);
      assert front[j] == eqs[j] && front[j + 1] == eqs[j + 1];
    }
  }

  /** The return of the last equity value over the starting cash; 0 when the
      starting cash is not positive or there are no bars. */
  function TotalReturn(eqs: seq<real>, cash: real): (r: real)
    ensures |eqs| > 0 && cash > 0.0 ==> eqs[|eqs| - 1] == cash * (1.0 + r)
    ensures |eqs| == 0 || cash <= 0.0 ==> r == 0.0
  {
    if |eqs| > 0 && cash > 0.0 then (eqs[|eqs| - 1] - cash) / cash else 0.0
  }

  /** The running peak after the first i values; the peak starts at 0, so it
      never falls below 0. */
  function Peak(eqs: seq<real>, i: int): real
    requires 0 <= i <= |eqs|
  {
    if i == 0 then 0.0
    else if eqs[i - 1] > Peak(eqs, i - 1) then eqs[i - 1]
    else Peak(eqs, i - 1)
  }

  /** The fall of value i from the running peak, as a fraction of the peak. */
  function DrawdownAt(eqs: seq<real>, i: int): real
    requires 0 <= i < |eqs|
  {
    var p := Peak(eqs, i + 1);
    if p > 0.0 then (p - eqs[i]) / p else 0.0
  }

  /** The largest drawdown among the first i values, and 0 when there is none. */
  function MaxDrawdownUpTo(eqs: seq<real>, i: int): real
    requires 0 <= i <= |eqs|
  {
    if i == 0 then 0.0
    else if DrawdownAt(eqs, i - 1) > MaxDrawdownUpTo(eqs, i - 1) then DrawdownAt(eqs, i - 1)
    else MaxDrawdownUpTo(eqs, i - 1)
  }

  function MaxDrawdown(eqs: seq<real>): real {
    MaxDrawdownUpTo(eqs, |eqs|)
  }

  method Drawdown(eqs: seq<real>) returns (maxdd: real)
    ensures maxdd == MaxDrawdown(eqs)
  {
    var peak := 0.0;
    maxdd := 0.0;
    for i := 0 to |eqs|
      invariant peak == Peak(eqs, i)
      invariant maxdd == MaxDrawdownUpTo(eqs, i)
    {
      var v := eqs[i];
      if v > peak {
        peak := v;
      }
      if peak > 0.0 {
        var dd := (peak - v) / peak;
        if dd > maxdd {
          maxdd := dd;
        }
      }
    }
  }

  /** The running peak is 0 or one of the values seen, and at least each of
      them. */
  lemma {:induction false} PeakIsMaximum(eqs: seq<real>, i: int)
    requires 0 <= i <= |eqs|
    ensures 0.0 <= Peak(eqs, i)
    ensures forall j :: 0 <= j < i ==> eqs[j] <= Peak(eqs, i)
    ensures Peak(eqs, i) == 0.0 || exists j :: 0 <= j < i && Peak(eqs, i) == eqs[j]
  {
    if i > 0 {
      PeakIsMaximum(eqs, i - 1);
    }
  }

  /** For 0 <= v <= q <= p with p > 0, a fall to v from the larger peak p is at
      least the fall from q. */
  lemma FallFromHigherPeak(p: real, q: real, v: real)
    requires 0.0 < q <= p && 0.0 <= v
    ensures (q - v) / q <= (p - v) / p
  {
    var a, b := v / q, v / p;
    DivMul(v, q);
    DivMul(v, p);
    assert 0.0 <= a;
    assert a * q <= a * p;
    assert b * p <= a * p;
    assert b <= a;
    DivUnique(1.0 - a, q - v, q);
    DivUnique(1.0 - b, p - v, p);
  }

  /** A fall from a positive level to a non-negative one is a fraction in
      [0, 1] when it is a fall at all. */
  lemma FallFraction(q: real, v: real)
    requires 0.0 < q && 0.0 <= v
    ensures (q - v) / q <= 1.0
    ensures v <= q ==> 0.0 <= (q - v) / q
    ensures q <= v ==> (q - v) / q <= 0.0
  {
    var a := v / q;
    DivMul(v, q);
    DivUnique(1.0 - a, q - v, q);
    assert 0.0 <= a;
    if v <= q {
      assert a * q <= 1.0 * q;
    }
    if q <= v {
      assert 1.0 * q <= a * q;
    }
  }

  /** The running maximum is at least the drawdown of every value it covers. */
  lemma {:induction false} MaxDrawdownCovers(eqs: seq<real>, i: int, k: int)
    requires 0 <= k < i <= |eqs|
    ensures DrawdownAt(eqs, k) <= MaxDrawdownUpTo(eqs, i)
    decreases i
  {
    if k < i - 1 {
      MaxDrawdownCovers(eqs, i - 1, k);
    }
  }

  /** The maximum drawdown is at least the fall from any positive value to any
      later non-negative one. */
  lemma {:induction false} MaxDrawdownAtLeastFall(eqs: seq<real>, j: int, k: int)
    requires 0 <= j <= k < |eqs| && 0.0 < eqs[j] && 0.0 <= eqs[k]
    ensures (eqs[j] - eqs[k]) / eqs[j] <= MaxDrawdown(eqs)
  {
    PeakIsMaximum(eqs, k + 1);
    FallFromHigherPeak(Peak(eqs, k + 1), eqs[j], eqs[k]);
    MaxDrawdownCovers(eqs, |eqs|, k);
  }

  /** A value's drawdown is 0 or the fall to it from an earlier (or the same)
      positive value. */
  lemma {:induction false} DrawdownAtIsAFall(eqs: seq<real>, k: int)
    requires 0 <= k < |eqs|
    ensures DrawdownAt(eqs, k) == 0.0 ||
      exists j :: 0 <= j <= k && 0.0 < eqs[j] && DrawdownAt(eqs, k) == (eqs[j] - eqs[k]) / eqs[j]
  {
    PeakIsMaximum(eqs, k + 1);
    var p := Peak(eqs, k + 1);
    if p > 0.0 {
      var j :| 0 <= j < k + 1 && p == eqs[j];
      assert DrawdownAt(eqs, k) == (eqs[j] - eqs[k]) / eqs[j];
    }
  }

  /** The maximum drawdown is never negative, and it is 0 or the fall from a
      positive value to a later (or the same) one. */
  lemma {:induction false} MaxDrawdownAttained(eqs: seq<real>, i: int)
    requires 0 <= i <= |eqs|
    ensures 0.0 <= MaxDrawdownUpTo(eqs, i)
    ensures MaxDrawdownUpTo(eqs, i) == 0.0 ||
      exists j, k :: 0 <= j <= k < i && 0.0 < eqs[j] && MaxDrawdownUpTo(eqs, i) == (eqs[j] - eqs[k]) / eqs[j]
  {
    if i > 0 {
      MaxDrawdownAttained(eqs, i - 1);
      if DrawdownAt(eqs, i - 1) > MaxDrawdownUpTo(eqs, i - 1) {
        DrawdownAtIsAFall(eqs, i - 1);
      }
    }
  }

  /** Among non-negative values the maximum drawdown lies in [0, 1], and a
      curve that never falls has none. */
  lemma {:induction false} MaxDrawdownRange(eqs: seq<real>)
    ensures 0.0 <= MaxDrawdown(eqs)
    ensures (forall j :: 0 <= j < |eqs| ==> 0.0 <= eqs[j]) ==> MaxDrawdown(eqs) <= 1.0
    ensures (forall j, k :: 0 <= j <= k < |eqs| ==> eqs[j] <= eqs[k]) ==> MaxDrawdown(eqs) == 0.0
  {
    MaxDrawdownAttained(eqs, |eqs|);
    var m := MaxDrawdown(eqs);
    if m != 0.0 {
      var j, k :| 0 <= j <= k < |eqs| && 0.0 < eqs[j] && m == (eqs[j] - eqs[k]) / eqs[j];
      if 0.0 <= eqs[k] {
        FallFraction(eqs[j], eqs[k]);
      } else {
        assert !(forall j :: 0 <= j < |eqs| ==> 0.0 <= eqs[j]);
        assert !(eqs[j] <= eqs[k]);
      }
    }
  }

  // Sharpe ratio over float64 values.

  /** The float64 sum of the first i values, in order. */
  function FSum(xs: seq<Float>, i: int): Float
    requires 0 <= i <= |xs|
  {
    if i == 0 then Finite(0.0) else FAdd(FSum(xs, i - 1), xs[i - 1])
  }

  /** The float64 sum of the squared deviations of the first i values. */
  function FSquares(xs: seq<Float>, mean: Float, i: int): Float
    requires 0 <= i <= |xs|
  {
    if i == 0 then Finite(0.0)
    else var d := FSub(xs[i - 1], mean); FAdd(FSquares(xs, mean, i - 1), FMul(d, d))
  }

  function FMean(xs: seq<Float>): Float
    requires |xs| > 0
  {
    FDiv(FSum(xs, |xs|), Finite(|xs| as real))
  }

  function FStdDev(xs: seq<Float>, sqrt: real -> real): Float
    requires |xs| > 0
  {
    FSqrt(FDiv(FSquares(xs, FMean(xs), |xs|), Finite(|xs| as real)), sqrt)
  }

  /** `sharpeRatio`: mean over population deviation, annualised by the root of
      252; 0 for no values and for a zero deviation. */
  function SharpeOf(xs: seq<Float>, sqrt: real -> real): Float {
    if |xs| == 0 then Finite(0.0)
    else
      var sd := FStdDev(xs, sqrt);
      if sd.Finite? && sd.val == 0.0 then Finite(0.0)
      else FMul(FDiv(FMean(xs), sd), Finite(sqrt(252.0)))
  }

  method SharpeRatio(xs: seq<Float>, sqrt: real -> real) returns (r: Float)
    ensures r == SharpeOf(xs, sqrt)
  {
    if |xs| == 0 {
      return Finite(0.0);
    }
    var mean := Finite(0.0);
    for i := 0 to |xs|
      invariant mean == FSum(xs, i)
    {
      mean := FAdd(mean, xs[i]);
    }
    mean := FDiv(mean, Finite(|xs| as real));
    var sd := Finite(0.0);
    for i := 0 to |xs|
      invariant sd == FSquares(xs, mean, i)
    {
      var d := FSub(xs[i], mean);
      sd := FAdd(sd, FMul(d, d));
    }
    sd := FSqrt(FDiv(sd, Finite(|xs| as real)), sqrt);
    if sd.Finite? && sd.val == 0.0 {
      return Finite(0.0);
    }
    r := FMul(FDiv(mean, sd), Finite(sqrt(252.0)));
  }

  /** The float64 sum is finite exactly when every value is, and then it is
      the real sum. */
  lemma {:induction false} FSumFinite(xs: seq<Float>, i: int)
    requires 0 <= i <= |xs|
    ensures FSum(xs, i).Finite? <==> forall j :: 0 <= j < i ==> xs[j].Finite?
    ensures FSum(xs, i).Finite? ==> FSum(xs, i).val == Sum(Values(xs), 0, i)
  {
    if i > 0 {
      FSumFinite(xs, i - 1);
    }
  }

  function Values(xs: seq<Float>): (vs: seq<real>)
    ensures |vs| == |xs|
    ensures forall j :: 0 <= j < |xs| ==> vs[j] == (if xs[j].Finite? then xs[j].val else 0.0)
  {
    seq(|xs|, j requires 0 <= j < |xs| => if xs[j].Finite? then xs[j].val else 0.0)
  }

  /** A sum of squares is finite when every term is, and never negative. */
  lemma {:induction false} FSquaresFinite(xs: seq<Float>, mean: Float, i: int)
    requires 0 <= i <= |xs|
    requires mean.Finite? && forall j :: 0 <= j < i ==> xs[j].Finite?
    ensures FSquares(xs, mean, i).Finite? && 0.0 <= FSquares(xs, mean, i).val
  {
    if i > 0 {
      FSquaresFinite(xs, mean, i - 1);
      var d := xs[i - 1].val - mean.val;
      assert 0.0 <= d * d;
    }
  }

  /** The squared deviations from a mean equal to every value sum to 0. */
  lemma {:induction false} FSquaresOfConstant(xs: seq<Float>, c: real, i: int)
    requires 0 <= i <= |xs|
    requires forall j :: 0 <= j < |xs| ==> xs[j] == Finite(c)
    ensures FSquares(xs, Finite(c), i) == Finite(0.0)
  {
    if i > 0 {
      FSquaresOfConstant(xs, c, i - 1);
    }
  }

  /** One non-finite return makes the Sharpe ratio NaN. */
  lemma {:induction false} SharpeNotFinite(xs: seq<Float>, sqrt: real -> real, j: int)
    requires 0 <= j < |xs| && !xs[j].Finite?
    ensures !SharpeOf(xs, sqrt).Finite?
  {
    FSumFinite(xs, |xs|);
  }

  /** With finite returns the deviation is a finite, non-negative number. */
  lemma StdDevFinite(xs: seq<Float>, sqrt: real -> real)
    requires IsSqrt(sqrt)
    requires |xs| > 0 && forall j :: 0 <= j < |xs| ==> xs[j].Finite?
    ensures FMean(xs).Finite?
    ensures FStdDev(xs, sqrt).Finite? && 0.0 <= FStdDev(xs, sqrt).val
  {
    FSumFinite(xs, |xs|);
    var mean := FMean(xs);
    FSquaresFinite(xs, mean, |xs|);
    var v := FSquares(xs, mean, |xs|).val / |xs| as real;
    assert 0.0 <= v;
    assert FStdDev(xs, sqrt) == Finite(sqrt(v));
    if v != 0.0 {
      assert 0.0 < sqrt(v);
    }
  }

  /** Dividing by a positive deviation and scaling by a positive factor
      keeps the sign of the mean. */
  lemma RatioSign(m: real, d: real, q: real)
    requires 0.0 < d && 0.0 < q
    ensures m > 0.0 <==> m / d * q > 0.0
    ensures m < 0.0 <==> m / d * q < 0.0
  {
    var r := m / d;
    DivMul(m, d);
    assert r * d == m;
    if m > 0.0 {
      assert r > 0.0;
    } else if m < 0.0 {
      assert r < 0.0;
    }
  }

  /** With finite returns the ratio is finite and a positive (negative) ratio
      means a positive (negative) mean return; with a non-zero deviation the
      converse holds as well. */
  lemma SharpeSign(xs: seq<Float>, sqrt: real -> real)
    requires IsSqrt(sqrt)
    requires |xs| > 0 && forall j :: 0 <= j < |xs| ==> xs[j].Finite?
    ensures SharpeOf(xs, sqrt).Finite?
    ensures FMean(xs).Finite?
    ensures SharpeOf(xs, sqrt).val > 0.0 ==> FMean(xs).val > 0.0
    ensures SharpeOf(xs, sqrt).val < 0.0 ==> FMean(xs).val < 0.0
    ensures FStdDev(xs, sqrt).Finite? && FStdDev(xs, sqrt).val != 0.0 ==>
      (FMean(xs).val > 0.0 ==> SharpeOf(xs, sqrt).val > 0.0) && (FMean(xs).val < 0.0 ==> SharpeOf(xs, sqrt).val < 0.0)
  {
    StdDevFinite(xs, sqrt);
    var mean := FMean(xs);
    var sd := FStdDev(xs, sqrt);
    if sd.val != 0.0 {
      assert sqrt(252.0) > 0.0;
      RatioSign(mean.val, sd.val, sqrt(252.0));
      assert SharpeOf(xs, sqrt) == Finite(mean.val / sd.val * sqrt(252.0));
    }
  }

  /** Returns that are all the same finite value have Sharpe ratio 0. */
  lemma {:induction false} SharpeOfConstant(xs: seq<Float>, c: real, sqrt: real -> real)
    requires IsSqrt(sqrt)
    requires |xs| > 0 && forall j :: 0 <= j < |xs| ==> xs[j] == Finite(c)
    ensures SharpeOf(xs, sqrt) == Finite(0.0)
  {
    FSumFinite(xs, |xs|);
    var vs := Values(xs);
    SumBounds(vs, 0, |xs|, c, c);
    assert FMean(xs) == Finite(c);
    FSquaresOfConstant(xs, c, |xs|);
  }

  // ---------------------------------------------------------------------
  // The whole back test.

  /** `RunBacktestAdvanced`, specified. */
  function BacktestOf(ks: seq<Kline>, strat: Strategy, cfg: Settings, sqrt: real -> real): BacktestResult
    requires Applicable(strat, ks)
  {
    if |ks| == 0 then BacktestResult([], [], [], [], 0.0, 0.0, Finite(0.0))
    else
      SignalsShape(strat, ks);
      var sigs := SignalsOf(strat, ks);
      var eqs := EquityUpTo(ks, sigs, cfg, |ks|);
      BacktestResult(eqs, CashUpTo(ks, sigs, cfg, |ks|), PositionUpTo(ks, sigs, cfg, |ks|),
                     Replay(ks, sigs, cfg, |ks|).trades,
                     TotalReturn(eqs, cfg.cash), MaxDrawdown(eqs), SharpeOf(Rets(eqs), sqrt))
  }

  /** An empty series gives empty series, no trades and zero metrics. */
  lemma EmptySeriesResult(ks: seq<Kline>, strat: Strategy, cfg: Settings, sqrt: real -> real)
    requires |ks| == 0 && Applicable(strat, ks)
    ensures var r := BacktestOf(ks, strat, cfg, sqrt);
      r.equity == [] && r.cash == [] && r.position == [] && r.trades == []
      && r.ret == 0.0 && r.maxDD == 0.0 && r.sharpe == Finite(0.0)
  {
  }

  /** All-zero signals give a flat equity curve at the starting cash. */
  lemma {:induction false} SilentSeries(ks: seq<Kline>, sigs: seq<int>, cfg: Settings)
    requires |sigs| == |ks|
    requires forall j :: 0 <= j < |sigs| ==> sigs[j] == 0
    ensures Replay(ks, sigs, cfg, |ks|).trades == []
    ensures forall j :: 0 <= j < |ks| ==>
      EquityUpTo(ks, sigs, cfg, |ks|)[j] == cfg.cash && CashUpTo(ks, sigs, cfg, |ks|)[j] == cfg.cash &&
      PositionUpTo(ks, sigs, cfg, |ks|)[j] == 0
  {
    SilentSignalsNeverTrade(ks, sigs, cfg, |ks|);
    forall j | 0 <= j < |ks|
      ensures EquityUpTo(ks, sigs, cfg, |ks|)[j] == cfg.cash && CashUpTo(ks, sigs, cfg, |ks|)[j] == cfg.cash
      ensures PositionUpTo(ks, sigs, cfg, |ks|)[j] == 0
    {
      SilentSignalsNeverTrade(ks, sigs, cfg, j + 1);
      SeriesAt(ks, sigs, cfg, |ks|, j);
    }
  }

  /** A constant positive curve has all-zero returns, so Sharpe ratio 0. */
  lemma {:induction false} FlatCurveSharpe(eqs: seq<real>, c: real, sqrt: real -> real)
    requires IsSqrt(sqrt) && c > 0.0
    requires forall j :: 0 <= j < |eqs| ==> eqs[j] == c
    ensures SharpeOf(Rets(eqs), sqrt) == Finite(0.0)
  {
    var rs := Rets(eqs);
    if |rs| > 0 {
      forall j | 0 <= j < |rs| ensures rs[j] == Finite(0.0) {
        RetsAt(eqs, j);
        assert eqs[j] == c && eqs[j + 1] == c;
      }
      SharpeOfConstant(rs, 0.0, sqrt);
    }
  }

  /** A constant curve has no drawdown. */
  lemma {:induction false} FlatCurveNoDrawdown(eqs: seq<real>, c: real)
    requires forall j :: 0 <= j < |eqs| ==> eqs[j] == c
    ensures MaxDrawdown(eqs) == 0.0
  {
    MaxDrawdownRange(eqs);
  }

  /** The all-zero strategy on positive starting cash: no trades, a flat
      equity curve at the starting cash, and no return, drawdown or Sharpe. */
  lemma {:induction false} TestStrategyIsFlat(ks: seq<Kline>, cfg: Settings, sqrt: real -> real)
    requires IsSqrt(sqrt) && cfg.cash > 0.0
    ensures var r := BacktestOf(ks, Test, cfg, sqrt);
      r.trades == [] && |r.equity| == |ks| &&
      (forall j :: 0 <= j < |ks| ==> r.equity[j] == cfg.cash && r.cash[j] == cfg.cash && r.position[j] == 0) &&
      r.ret == 0.0 && r.maxDD == 0.0 && r.sharpe == Finite(0.0)
  {
    if |ks| > 0 {
      var sigs := TestSignals(ks);
      SilentSeries(ks, sigs, cfg);
      FlatCurveSharpe(EquityUpTo(ks, sigs, cfg, |ks|), cfg.cash, sqrt);
      FlatCurveNoDrawdown(EquityUpTo(ks, sigs, cfg, |ks|), cfg.cash);
    }
  }

  /** The body of the bar loop of `RunBacktestAdvanced`: the buy, sell,
      stop-loss and take-profit branches on the loop's local state. */
  method Bar(pos: int, eq: real, entry: real, trades: seq<Trade>, k: Kline, i: int, s: int, cfg: Settings)
    returns (pos': int, eq': real, entry': real, trades': seq<Trade>)
    ensures Account(pos', eq', entry', trades') == Step(Account(pos, eq, entry, trades), k, i, s, cfg)
  {
    pos', eq', entry', trades' := pos, eq, entry, trades;
    if s == 1 && pos == 0 {
      pos', eq', entry', trades' := OpenPosition(pos, eq, entry, trades, k, i, cfg);
    } else if s == -1 && pos > 0 {
      pos', eq', entry', trades' := ClosePosition(pos, eq, trades, k, i, cfg);
    } else if pos > 0 {
      pos', eq', entry', trades' := GuardPosition(pos, eq, entry, trades, k, i, cfg);
    }
  }

  /** The buy branch: the fee is the rate on the cost but at least the
      minimum, and the position opens only when the cash covers both. */
  method OpenPosition(pos: int, eq: real, entry: real, trades: seq<Trade>, k: Kline, i: int, cfg: Settings)
    returns (pos': int, eq': real, entry': real, trades': seq<Trade>)
    ensures var a := Account(pos, eq, entry, trades);
      var cost := Cost(k, cfg);
      Account(pos', eq', entry', trades') == if eq >= cost + Fee(cost, cfg) then Buy(a, k, i, cfg) else a
  {
    pos', eq', entry', trades' := pos, eq, entry, trades;
    var buyPx := BuyPx(k, cfg);
    var cost := buyPx * cfg.size as real;
    assert cost == Cost(k, cfg);
    var fee := cost * cfg.feeRate;
    if fee < cfg.minFee {
      fee := cfg.minFee;
    }
    if eq >= cost + fee {
      eq' := eq - (cost + fee);
      pos' := pos + cfg.size;
      entry' := buyPx;
      trades' := trades + [Trade(k.time, i, buyPx, "buy", cfg.size)];
    }
  }

  /** The branch of an open position without a sell signal: the stop-loss
      check, then the take-profit check on what is still open. */
  method GuardPosition(pos: int, eq: real, entry: real, trades: seq<Trade>, k: Kline, i: int, cfg: Settings)
    returns (pos': int, eq': real, entry': real, trades': seq<Trade>)
    ensures Account(pos', eq', entry', trades') == Protect(Account(pos, eq, entry, trades), k, i, cfg)
  {
    ghost var before := Account(pos, eq, entry, trades);
    pos', eq', entry', trades' := pos, eq, entry, trades;
    var sellPx := SellPx(k, cfg);
    if cfg.stopLoss > 0.0 && entry > 0.0 {
      var ret := (sellPx - entry) / entry;
      if ret <= -cfg.stopLoss {
        pos', eq', entry', trades' := ClosePosition(pos, eq, trades, k, i, cfg);
      }
    }
    ghost var mid := Account(pos', eq', entry', trades');
    assert mid == if StopHit(before, k, cfg) then Exit(before, k, i, cfg) else before;
    if cfg.takeProfit > 0.0 && entry' > 0.0 && pos' > 0 {
      var ret := (sellPx - entry') / entry';
      if ret >= cfg.takeProfit {
        pos', eq', entry', trades' := ClosePosition(pos', eq', trades', k, i, cfg);
      }
    }
  }

  /** The bar loop of `RunBacktestAdvanced`: the account in local variables,
      one entry per bar appended to each series, and the return over the
      previous bar from the second bar on. */
  method Simulate(ks: seq<Kline>, sigs: seq<int>, cfg: Settings)
    returns (equity: seq<real>, cash: seq<real>, position: seq<int>, trades: seq<Trade>, rets: seq<Float>)
    requires |sigs| == |ks|
    ensures equity == EquityUpTo(ks, sigs, cfg, |ks|)
    ensures cash == CashUpTo(ks, sigs, cfg, |ks|)
    ensures position == PositionUpTo(ks, sigs, cfg, |ks|)
    ensures trades == Replay(ks, sigs, cfg, |ks|).trades
    ensures rets == Rets(equity)
  {
    var n := |ks|;
    equity, cash, position, trades, rets := [], [], [], [], [];
    var pos := 0;
    var eq := cfg.cash;
    var entry := 0.0;
    for i := 0 to n
      invariant Account(pos, eq, entry, trades) == Replay(ks, sigs, cfg, i)
      invariant equity == EquityUpTo(ks, sigs, cfg, i)
      invariant cash == CashUpTo(ks, sigs, cfg, i)
      invariant position == PositionUpTo(ks, sigs, cfg, i)
      invariant rets == Rets(equity)
    {
      ghost var a := Replay(ks, sigs, cfg, i + 1);
      pos, eq, entry, trades := Bar(pos, eq, entry, trades, ks[i], i, sigs[i], cfg);
      assert Account(pos, eq, entry, trades) == a;
      var mtm := Mtm(Account(pos, eq, entry, trades), ks[i]);
      assert EquityUpTo(ks, sigs, cfg, i + 1) == equity + [mtm];
      assert CashUpTo(ks, sigs, cfg, i + 1) == cash + [eq];
      assert PositionUpTo(ks, sigs, cfg, i + 1) == position + [pos];
      if i > 0 {
        RetsLast(equity, mtm);
        rets := rets + [FDiv(Finite(mtm - equity[i - 1]), Finite(equity[i - 1]))];
      }
      equity := equity + [mtm];
      cash := cash + [eq];
      position := position + [pos];
    }
  }

  /** `RunBacktestAdvanced`: the signals, the bar loop and the metrics. */
  method RunBacktestAdvanced(ks: seq<Kline>, strat: Strategy, cfg: Settings, sqrt: real -> real)
    returns (r: BacktestResult)
    requires Applicable(strat, ks)
    ensures r == BacktestOf(ks, strat, cfg, sqrt)
    ensures |r.equity| == |r.cash| == |r.position| == |ks|
  {
    if |ks| == 0 {
      return BacktestResult([], [], [], [], 0.0, 0.0, Finite(0.0));
    }
    var sigs := Signals(strat, ks);
    SignalsShape(strat, ks);
    var equity, cash, position, trades, rets := Simulate(ks, sigs, cfg);
    var n := |ks|;
    var totalRet := 0.0;
    if n > 0 && cfg.cash > 0.0 {
      totalRet := (equity[n - 1] - cfg.cash) / cfg.cash;
    }
    var maxDD := Drawdown(equity);
    var sharpe := SharpeRatio(rets, sqrt);
    r := BacktestResult(equity, cash, position, trades, totalRet, maxDD, sharpe);
  }

  /** The sell branch shared by the sell signal, the stop and the target. */
  method ClosePosition(pos: int, eq: real, trades: seq<Trade>, k: Kline, i: int, cfg: Settings)
    returns (pos': int, eq': real, entry': real, trades': seq<Trade>)
    ensures pos' == 0 && entry' == 0.0
    ensures eq' == eq + (SellPx(k, cfg) * pos as real - Fee(SellPx(k, cfg) * pos as real, cfg))
    ensures trades' == trades + [Trade(k.time, i, SellPx(k, cfg), "sell", pos)]
  {
    var sellPx := SellPx(k, cfg);
    var proceeds := sellPx * pos as real;
    var fee := proceeds * cfg.feeRate;
    if fee < cfg.minFee {
      fee := cfg.minFee;
    }
    eq' := eq + (proceeds - fee);
    trades' := trades + [Trade(k.time, i, sellPx, "sell", pos)];
    pos' := 0;
    entry' := 0.0;
  }
}
