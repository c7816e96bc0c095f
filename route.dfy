/** The back-test routes of the HTTP API: the request defaults, the strategy
    lookup, the run over every stock code with its running sums and
    averages, the in-place ranking by return cut to 200 rows, and the
    streamed variant that sends one message per code and then a summary. */
module Route {
  import opened Common
  import opened Strategy
  import opened Engine
  import opened Ranking

  /** `backtestReq`: the JSON body of the two POST back-test routes. */
  datatype BacktestReq = BacktestReq(
    strategy: string, symbol: string, start: string, end: string,
    cash: real, size: int, feeRate: real, minFee: real,
    slippage: real, stopLoss: real, takeProfit: real)

  /** `BacktestItem`: one code's line in the all-codes report. */
  datatype BacktestItem = BacktestItem(code: string, name: string, ret: real, maxDD: real, sharpe: Float)

  /** `BacktestAllResp`. */
  datatype BacktestAllResp = BacktestAllResp(
    avgReturn: real, avgSharpe: Float, avgMaxDD: real, count: int, items: seq<BacktestItem>)

  /** The times the handlers fall back to when a date is not given: Go's zero
      time, 1990-01-01 in local time, and the current time. */
  datatype Clock = Clock(zero: int, y1990: int, now: int)

  /** A request once its strategy is found and its dates and settings are
      settled. */
  datatype Plan = Plan(strat: Strategy, start: int, end: int, cfg: Settings)

  /** One frame the streaming route writes to its WebSocket. */
  datatype WsMessage =
    | ItemMsg(item: BacktestItem)
    | SummaryMsg(avgReturn: real, avgSharpe: Float, avgMaxDD: real, count: int)

  /** The query string of the streaming route, keys already parsed to the
      type the handler asks for. */
  datatype Query = Query(strs: map<string, string>, reals: map<string, real>, ints: map<string, int>)

  /** The all-codes report lists at most this many items. */
  const MaxItems := 200

  // ---------------------------------------------------------------------
  // Request defaults and the strategy lookup.

  /** The engine settings of a POST body: a cash, size, fee rate or minimum
      fee that is not positive is replaced by 100000, 1, 0.0005 and 5; the
      slippage and the two thresholds are taken as given. */
  function Defaults(req: BacktestReq): (cfg: Settings)
    ensures cfg.cash > 0.0 && cfg.size > 0 && cfg.feeRate > 0.0 && cfg.minFee > 0.0
    ensures req.cash > 0.0 ==> cfg.cash == req.cash
    ensures req.cash <= 0.0 ==> cfg.cash == 100000.0
    ensures req.size > 0 ==> cfg.size == req.size
    ensures req.size <= 0 ==> cfg.size == 1
    ensures req.feeRate > 0.0 ==> cfg.feeRate == req.feeRate
    ensures req.feeRate <= 0.0 ==> cfg.feeRate == 0.0005
    ensures req.minFee > 0.0 ==> cfg.minFee == req.minFee
    ensures req.minFee <= 0.0 ==> cfg.minFee == 5.0
    ensures cfg.slippage == req.slippage && cfg.stopLoss == req.stopLoss && cfg.takeProfit == req.takeProfit
  {
    Settings(
      if req.cash <= 0.0 then 100000.0 else req.cash,
      if req.size <= 0 then 1 else req.size,
      if req.feeRate <= 0.0 then 0.0005 else req.feeRate,
      if req.minFee <= 0.0 then 5.0 else req.minFee,
      req.slippage, req.stopLoss, req.takeProfit)
  }

  /** A date field: the fallback when empty, else what parsing it gives. */
  function DateOr(s: string, parse: string -> Result<int>, fallback: int): (r: Result<int>)
    ensures s == "" ==> r == Ok(fallback)
    ensures s != "" ==> r == parse(s)
  {
    if s == "" then Ok(fallback) else parse(s)
  }

  /** The checks a handler makes before it reads any series, in the
      handler's order: the strategy must be registered, then the start and
      the end date must parse. */
  function PlanFor(name: string, start: string, end: string, cfg: Settings,
                   strategies: map<string, Strategy>, parse: string -> Result<int>,
                   emptyStart: int, emptyEnd: int): (r: Result<Plan>)
    ensures name !in strategies ==> r == Err("strategy not found")
    ensures r.Ok? <==> name in strategies && DateOr(start, parse, emptyStart).Ok? && DateOr(end, parse, emptyEnd).Ok?
    ensures name in strategies && DateOr(start, parse, emptyStart).Err? ==> r == Err(DateOr(start, parse, emptyStart).msg)
    ensures r.Ok? ==> r.value == Plan(strategies[name], DateOr(start, parse, emptyStart).value,
                                      DateOr(end, parse, emptyEnd).value, cfg)
  {
    if name !in strategies then Err("strategy not found")
    else
      match DateOr(start, parse, emptyStart)
      case Err(msg) => Err(msg)
      case Ok(s) =>
        match DateOr(end, parse, emptyEnd)
        case Err(msg) => Err(msg)
        case Ok(e) => Ok(Plan(strategies[name], s, e, cfg))
  }

  // ---------------------------------------------------------------------
  // `Backtest`: one symbol.

  /** `Backtest`: the plan of the body (an empty date is Go's zero time),
      then the symbol's series, then the engine on it. An empty series is
      run as well and gives the engine's empty result. */
  method Backtest(req: BacktestReq, reg: Registry, parse: string -> Result<int>, m: Market,
                  clock: Clock, sqrt: real -> real) returns (r: Result<BacktestResult>)
    requires Runnable(reg.strategies)
    ensures req.strategy !in reg.strategies ==> r == Err("strategy not found")
    ensures var plan := PlanFor(req.strategy, req.start, req.end, Defaults(req), reg.strategies, parse, clock.zero, clock.zero);
      match plan
      case Err(msg) => r == Err(msg)
      case Ok(p) =>
        match m.klines(req.symbol, p.start, p.end)
        case Err(msg) => r == Err(msg)
        case Ok(ks) => r.Ok? && r.value == BacktestOf(ks, p.strat, p.cfg, sqrt) && |r.value.equity| == |ks|
  {
    var plan := PlanFor(req.strategy, req.start, req.end, Defaults(req), reg.strategies, parse, clock.zero, clock.zero);
    if plan.Err? {
      return Err(plan.msg);
    }
    var p := plan.value;
    var fetched := m.klines(req.symbol, p.start, p.end);
    if fetched.Err? {
      return Err(fetched.msg);
    }
    var res := RunBacktestAdvanced(fetched.value, p.strat, p.cfg, sqrt);
    r := Ok(res);
  }

  // ---------------------------------------------------------------------
  // The run over every code.

  function ItemOf(code: string, name: string, res: BacktestResult): BacktestItem {
    BacktestItem(code, name, res.ret, res.maxDD, res.sharpe)
  }

  /** One code's item, or none when its series cannot be read or is empty. */
  function Outcome(m: Market, p: Plan, sqrt: real -> real, code: string): (o: Option<BacktestItem>)
    requires Runs(p.strat)
    ensures o.Some? <==> m.klines(code, p.start, p.end).Ok? && |m.klines(code, p.start, p.end).value| > 0
    ensures o.Some? ==> o.value.code == code && o.value.name == m.name(code)
  {
    match m.klines(code, p.start, p.end)
    case Err(_) => None
    case Ok(ks) =>
      if |ks| == 0 then None else Some(ItemOf(code, m.name(code), BacktestOf(ks, p.strat, p.cfg, sqrt)))
  }

  /** Reading one code's series and running the engine on it. */
  method Visit(m: Market, p: Plan, sqrt: real -> real, code: string) returns (o: Option<BacktestItem>)
    requires Runs(p.strat)
    ensures o == Outcome(m, p, sqrt, code)
  {
    var fetched := m.klines(code, p.start, p.end);
    if fetched.Err? || |fetched.value| == 0 {
      return None;
    }
    var res := RunBacktestAdvanced(fetched.value, p.strat, p.cfg, sqrt);
    o := Some(BacktestItem(code, m.name(code), res.ret, res.maxDD, res.sharpe));
  }

  /** The items of the first i codes, in code order. */
  function Collected(m: Market, p: Plan, sqrt: real -> real, i: int): (items: seq<BacktestItem>)
    requires Runs(p.strat) && 0 <= i <= |m.codes|
    ensures |items| <= i
  {
    if i == 0 then []
    else
      var o := Outcome(m, p, sqrt, m.codes[i - 1]);
      Collected(m, p, sqrt, i - 1) + (if o.Some? then [o.value] else [])
  }

  /** Every item is the outcome of one of the codes read so far. */
  lemma {:induction false} CollectedSound(m: Market, p: Plan, sqrt: real -> real, i: int, j: int)
    requires Runs(p.strat) && 0 <= i <= |m.codes| && 0 <= j < |Collected(m, p, sqrt, i)|
    ensures var it := Collected(m, p, sqrt, i)[j];
      it.code in m.codes[..i] && Outcome(m, p, sqrt, it.code) == Some(it)
  {
    var o := Outcome(m, p, sqrt, m.codes[i - 1]);
    var prev := Collected(m, p, sqrt, i - 1);
    if j < |prev| {
      CollectedSound(m, p, sqrt, i - 1, j);
      assert Collected(m, p, sqrt, i)[j] == prev[j];
      assert m.codes[..i - 1] <= m.codes[..i];
    } else {
      assert Collected(m, p, sqrt, i)[j] == o.value;
      assert m.codes[..i][i - 1] == m.codes[i - 1];
    }
  }

  /** Every code with a readable, non-empty series has its item, and the
      number of items is the number of such codes. */
  lemma {:induction false} CollectedComplete(m: Market, p: Plan, sqrt: real -> real, i: int, q: int)
    requires Runs(p.strat) && 0 <= q < i <= |m.codes|
    requires Outcome(m, p, sqrt, m.codes[q]).Some?
    ensures Outcome(m, p, sqrt, m.codes[q]).value in Collected(m, p, sqrt, i)
  {
    var prev := Collected(m, p, sqrt, i - 1);
    var o := Outcome(m, p, sqrt, m.codes[i - 1]);
    var tail := if o.Some? then [o.value] else [];
    assert Collected(m, p, sqrt, i) == prev + tail;
    if q < i - 1 {
      CollectedComplete(m, p, sqrt, i - 1, q);
    } else {
      assert tail == [o.value];
    }
  }

  /** A code whose series cannot be read or is empty adds nothing. */
  lemma SkippedCodesAddNothing(m: Market, p: Plan, sqrt: real -> real, i: int)
    requires Runs(p.strat) && 0 < i <= |m.codes|
    requires m.klines(m.codes[i - 1], p.start, p.end).Err? || |m.klines(m.codes[i - 1], p.start, p.end).value| == 0
    ensures Collected(m, p, sqrt, i) == Collected(m, p, sqrt, i - 1)
  {
    assert Collected(m, p, sqrt, i - 1) + [] == Collected(m, p, sqrt, i - 1);
  }

  // ---------------------------------------------------------------------
  // Running sums and averages.

  function Ret(it: BacktestItem): real {
    it.ret
  }

  function DrawdownOf(it: BacktestItem): real {
    it.maxDD
  }

  /** The float64 running sum of one field over the items, in order. */
  function SumOf(items: seq<BacktestItem>, f: BacktestItem -> real): real {
    if |items| == 0 then 0.0 else SumOf(items[..|items| - 1], f) + f(items[|items| - 1])
  }

  /** The running sum of the Sharpe ratios: a NaN or an infinity poisons it. */
  function SumSharpes(items: seq<BacktestItem>): (s: Float)
    ensures s.Finite? <==> forall j :: 0 <= j < |items| ==> items[j].sharpe.Finite?
  {
    if |items| == 0 then Finite(0.0)
    else
      var init := items[..|items| - 1];
      assert forall j :: 0 <= j < |init| ==> init[j] == items[j];
      FAdd(SumSharpes(init), items[|items| - 1].sharpe)
  }

  /** sum / cnt when at least one code counted, else 0. */
  function Average(sum: real, cnt: int): (r: real)
    ensures cnt > 0 ==> r * cnt as real == sum
    ensures cnt <= 0 ==> r == 0.0
  {
    if cnt > 0 then sum / cnt as real else 0.0
  }

  function FAverage(sum: Float, cnt: int): (r: Float)
    ensures cnt > 0 ==> (r.Finite? <==> sum.Finite?) && (r.Finite? ==> r.val * cnt as real == sum.val)
    ensures cnt <= 0 ==> r == Finite(0.0)
  {
    if cnt > 0 then FDivCancels(sum, Finite(cnt as real)); FDiv(sum, Finite(cnt as real)) else Finite(0.0)
  }

  /** A sum of n terms that all lie in [lo, hi] lies in [n * lo, n * hi]. */
  lemma {:induction false} SumOfBounds(items: seq<BacktestItem>, f: BacktestItem -> real, lo: real, hi: real)
    requires forall j :: 0 <= j < |items| ==> lo <= f(items[j]) <= hi
    ensures |items| as real * lo <= SumOf(items, f) <= |items| as real * hi
  {
    if |items| > 0 {
      var init := items[..|items| - 1];
      assert forall j :: 0 <= j < |init| ==> init[j] == items[j];
      SumOfBounds(init, f, lo, hi);
      var m := |init| as real;
      assert |items| as real == m + 1.0;
      assert (m + 1.0) * lo == m * lo + lo && (m + 1.0) * hi == m * hi + hi;
    }
  }

  /** An average of values in [lo, hi] lies in [lo, hi]. */
  lemma AverageBounds(items: seq<BacktestItem>, f: BacktestItem -> real, lo: real, hi: real)
    requires |items| > 0
    requires forall j :: 0 <= j < |items| ==> lo <= f(items[j]) <= hi
    ensures lo <= Average(SumOf(items, f), |items|) <= hi
  {
    SumOfBounds(items, f, lo, hi);
    DivWithin(SumOf(items, f), |items| as real, lo, hi);
  }

  // ---------------------------------------------------------------------
  // The ranking.

  /** The sort and the cut of `BacktestAll`: the best min(|items|, 200)
      items by return, best first. */
  method Rank(items: seq<BacktestItem>) returns (top: seq<BacktestItem>)
    ensures |top| == (if |items| > MaxItems then MaxItems else |items|)
    ensures SortedBy(top, Ret)
    ensures multiset(top) <= multiset(items)
    ensures forall x, y :: x in multiset(items) - multiset(top) && y in top ==> x.ret <= y.ret
  {
    var a := new BacktestItem[|items|](j requires 0 <= j < |items| => items[j]);
    assert a[..] == items;
    SortDescending(a, Ret);
    top := CutBest(a[..], items);
  }

  /** The first min(|ranked|, 200) entries of a sorted arrangement of
      `items`. */
  function CutBest(ranked: seq<BacktestItem>, items: seq<BacktestItem>): (top: seq<BacktestItem>)
    requires SortedBy(ranked, Ret) && multiset(ranked) == multiset(items)
    ensures |top| == (if |items| > MaxItems then MaxItems else |items|)
    ensures SortedBy(top, Ret)
    ensures multiset(top) <= multiset(items)
    ensures forall x, y :: x in multiset(items) - multiset(top) && y in top ==> x.ret <= y.ret
  {
    var k := if |ranked| > MaxItems then MaxItems else |ranked|;
    TopOfSorted(ranked, k, Ret);
    assert ranked == ranked[..k] + ranked[k..];
    assert |ranked| == |multiset(ranked)| == |items|;
    ranked[..k]
  }

  /** `resp` is the all-codes report of `all`: its count and averages cover
      every item, and its list holds the best min(|all|, 200) items by
      return, best first. */
  ghost predicate Reports(resp: BacktestAllResp, all: seq<BacktestItem>) {
    && resp.count == |all|
    && resp.avgReturn == Average(SumOf(all, Ret), |all|)
    && resp.avgMaxDD == Average(SumOf(all, DrawdownOf), |all|)
    && resp.avgSharpe == FAverage(SumSharpes(all), |all|)
    && |resp.items| == (if |all| > MaxItems then MaxItems else |all|)
    && SortedBy(resp.items, Ret)
    && multiset(resp.items) <= multiset(all)
    && (forall x, y :: x in multiset(all) - multiset(resp.items) && y in resp.items ==> x.ret <= y.ret)
  }

  /** One more item adds its terms to the three running sums. */
  lemma SumsGrow(items: seq<BacktestItem>, item: BacktestItem)
    ensures SumOf(items + [item], Ret) == SumOf(items, Ret) + item.ret
    ensures SumOf(items + [item], DrawdownOf) == SumOf(items, DrawdownOf) + item.maxDD
    ensures SumSharpes(items + [item]) == FAdd(SumSharpes(items), item.sharpe)
  {
    assert (items + [item])[..|items|] == items;
  }

  /** The loop of both all-codes routes: one item per code with a readable,
      non-empty series, in code order, with the three running sums. */
  method RunAll(m: Market, p: Plan, sqrt: real -> real)
    returns (items: seq<BacktestItem>, sumRet: real, sumSharpe: Float, sumDD: real, cnt: int)
    requires Runs(p.strat)
    ensures items == Collected(m, p, sqrt, |m.codes|)
    ensures sumRet == SumOf(items, Ret) && sumDD == SumOf(items, DrawdownOf)
    ensures sumSharpe == SumSharpes(items) && cnt == |items|
  {
    items := [];
    sumRet, sumSharpe, sumDD, cnt := 0.0, Finite(0.0), 0.0, 0;
    for i := 0 to |m.codes|
      invariant items == Collected(m, p, sqrt, i)
      invariant sumRet == SumOf(items, Ret) && sumDD == SumOf(items, DrawdownOf)
      invariant sumSharpe == SumSharpes(items) && cnt == |items|
    {
      var o := Visit(m, p, sqrt, m.codes[i]);
      if o.None? {
        assert Collected(m, p, sqrt, i + 1) == items;
        continue;
      }
      var item := o.value;
      assert Collected(m, p, sqrt, i + 1) == items + [item];
      SumsGrow(items, item);
      items := items + [item];
      sumRet := sumRet + item.ret;
      sumSharpe := FAdd(sumSharpe, item.sharpe);
      sumDD := sumDD + item.maxDD;
      cnt := cnt + 1;
    }
  }

  /** `BacktestAll`: the plan of the body (an empty start is 1990-01-01, an
      empty end is now), the run over every code, the ranking cut to 200
      and the averages over every counted code. */
  method BacktestAll(req: BacktestReq, reg: Registry, parse: string -> Result<int>, m: Market,
                     clock: Clock, sqrt: real -> real) returns (r: Result<BacktestAllResp>)
    requires Runnable(reg.strategies)
    ensures req.strategy !in reg.strategies ==> r == Err("strategy not found")
    ensures var plan := PlanFor(req.strategy, req.start, req.end, Defaults(req), reg.strategies, parse, clock.y1990, clock.now);
      match plan
      case Err(msg) => r == Err(msg)
      case Ok(p) => r.Ok? && Reports(r.value, Collected(m, p, sqrt, |m.codes|))
  {
    var plan := PlanFor(req.strategy, req.start, req.end, Defaults(req), reg.strategies, parse, clock.y1990, clock.now);
    if plan.Err? {
      return Err(plan.msg);
    }
    var p := plan.value;
    var items, sumRet, sumSharpe, sumDD, cnt := RunAll(m, p, sqrt);
    var top := Rank(items);
    r := Ok(BacktestAllResp(Average(sumRet, cnt), FAverage(sumSharpe, cnt), Average(sumDD, cnt), cnt, top));
  }

  // ---------------------------------------------------------------------
  // `BacktestAllWS`: the streamed variant.

  function QueryString(q: Query, key: string): string {
    if key in q.strs then q.strs[key] else ""
  }

  function QueryReal(q: Query, key: string, default: real): real {
    if key in q.reals then q.reals[key] else default
  }

  function QueryInt(q: Query, key: string, default: int): int {
    if key in q.ints then q.ints[key] else default
  }

  /** The settings of the streaming route: a value that is present in the
      query is taken as it is, even when not positive; an absent one gets
      the same default as the POST routes. */
  function WsSettings(q: Query): (cfg: Settings)
    ensures "cash" in q.reals ==> cfg.cash == q.reals["cash"]
    ensures "cash" !in q.reals ==> cfg.cash == 100000.0
    ensures "size" in q.ints ==> cfg.size == q.ints["size"]
    ensures "size" !in q.ints ==> cfg.size == 1
    ensures "fee_rate" in q.reals ==> cfg.feeRate == q.reals["fee_rate"]
    ensures "fee_rate" !in q.reals ==> cfg.feeRate == 0.0005
    ensures "min_fee" in q.reals ==> cfg.minFee == q.reals["min_fee"]
    ensures "min_fee" !in q.reals ==> cfg.minFee == 5.0
    ensures "slippage" in q.reals ==> cfg.slippage == q.reals["slippage"]
    ensures "slippage" !in q.reals ==> cfg.slippage == 0.0
    ensures "stop_loss" in q.reals ==> cfg.stopLoss == q.reals["stop_loss"]
    ensures "stop_loss" !in q.reals ==> cfg.stopLoss == 0.0
    ensures "take_profit" in q.reals ==> cfg.takeProfit == q.reals["take_profit"]
    ensures "take_profit" !in q.reals ==> cfg.takeProfit == 0.0
  {
    Settings(QueryReal(q, "cash", 100000.0), QueryInt(q, "size", 1),
             QueryReal(q, "fee_rate", 0.0005), QueryReal(q, "min_fee", 5.0),
             QueryReal(q, "slippage", 0.0), QueryReal(q, "stop_loss", 0.0),
             QueryReal(q, "take_profit", 0.0))
  }

  /** The POST defaults and the query defaults agree on a request that gives
      every value as a positive number. */
  lemma DefaultsAgree(req: BacktestReq, q: Query)
    requires req.cash > 0.0 && req.size > 0 && req.feeRate > 0.0 && req.minFee > 0.0
    requires q.reals == map["cash" := req.cash, "fee_rate" := req.feeRate, "min_fee" := req.minFee,
                            "slippage" := req.slippage, "stop_loss" := req.stopLoss, "take_profit" := req.takeProfit]
    requires q.ints == map["size" := req.size]
    ensures WsSettings(q) == Defaults(req)
  {
  }

  /** One item frame per item, in order. */
  function Frames(items: seq<BacktestItem>): (msgs: seq<WsMessage>)
    ensures |msgs| == |items|
  {
    if |items| == 0 then [] else Frames(items[..|items| - 1]) + [ItemMsg(items[|items| - 1])]
  }

  /** One more item adds its frame at the end. */
  lemma FramesGrow(items: seq<BacktestItem>, item: BacktestItem)
    ensures Frames(items + [item]) == Frames(items) + [ItemMsg(item)]
  {
    assert (items + [item])[..|items|] == items;
  }

  lemma {:induction false} FramesAt(items: seq<BacktestItem>, j: int)
    requires 0 <= j < |items|
    ensures Frames(items)[j] == ItemMsg(items[j])
  {
    if j < |items| - 1 {
      var init := items[..|items| - 1];
      FramesAt(init, j);
    }
  }

  /** The frames of one streamed run: an item for every counted code in
      code order, then the summary. */
  function Stream(all: seq<BacktestItem>): seq<WsMessage> {
    Frames(all)
      + [SummaryMsg(Average(SumOf(all, Ret), |all|), FAverage(SumSharpes(all), |all|),
                    Average(SumOf(all, DrawdownOf), |all|), |all|)]
  }

  /** The stream ends with exactly one summary, every frame before it is an
      item, and the summary's count is the number of items sent. */
  lemma StreamShape(all: seq<BacktestItem>)
    ensures var msgs := Stream(all);
      |msgs| == |all| + 1
      && msgs[|all|].SummaryMsg? && msgs[|all|].count == |all|
      && (forall j :: 0 <= j < |all| ==> msgs[j] == ItemMsg(all[j]))
      && (forall j :: 0 <= j < |msgs| && msgs[j].SummaryMsg? ==> j == |all|)
  {
    forall j | 0 <= j < |all|
      ensures Stream(all)[j] == ItemMsg(all[j])
    {
      FramesAt(all, j);
    }
  }

  /** With the same plan, the stream's summary carries the POST report's
      averages and count, and the report lists only streamed items. */
  lemma StreamAgreesWithReport(resp: BacktestAllResp, all: seq<BacktestItem>)
    requires Reports(resp, all)
    ensures var s := Stream(all)[|all|];
      s == SummaryMsg(resp.avgReturn, resp.avgSharpe, resp.avgMaxDD, resp.count)
    ensures forall j :: 0 <= j < |resp.items| ==> ItemMsg(resp.items[j]) in Stream(all)
  {
    forall j | 0 <= j < |resp.items|
      ensures ItemMsg(resp.items[j]) in Stream(all)
    {
      var it := resp.items[j];
      assert it in multiset(resp.items);
      assert it in multiset(all);
      var p :| 0 <= p < |all| && all[p] == it;
      FramesAt(all, p);
      assert Stream(all)[p] == ItemMsg(it);
    }
  }

  /** The loop of `BacktestAllWS`: a frame for each counted code as soon as
      its run is done, then the summary frame. */
  method StreamAll(m: Market, p: Plan, sqrt: real -> real) returns (msgs: seq<WsMessage>)
    requires Runs(p.strat)
    ensures msgs == Stream(Collected(m, p, sqrt, |m.codes|))
  {
    msgs := [];
    var items: seq<BacktestItem> := [];
    var sumRet, sumSharpe, sumDD, cnt := 0.0, Finite(0.0), 0.0, 0;
    for i := 0 to |m.codes|
      invariant items == Collected(m, p, sqrt, i)
      invariant msgs == Frames(items)
      invariant sumRet == SumOf(items, Ret) && sumDD == SumOf(items, DrawdownOf)
      invariant sumSharpe == SumSharpes(items) && cnt == |items|
    {
      var o := Visit(m, p, sqrt, m.codes[i]);
      if o.None? {
        assert Collected(m, p, sqrt, i + 1) == items;
        continue;
      }
      var item := o.value;
      assert Collected(m, p, sqrt, i + 1) == items + [item];
      SumsGrow(items, item);
      FramesGrow(items, item);
      items := items + [item];
      sumRet := sumRet + item.ret;
      sumSharpe := FAdd(sumSharpe, item.sharpe);
      sumDD := sumDD + item.maxDD;
      cnt := cnt + 1;
      msgs := msgs + [ItemMsg(item)];
    }
    msgs := msgs + [SummaryMsg(Average(sumRet, cnt), FAverage(sumSharpe, cnt), Average(sumDD, cnt), cnt)];
  }

  /** `BacktestAllWS`: the plan of the query (an absent strategy name is the
      empty name), then one frame per counted code and the summary. The
      WebSocket writes' own errors are ignored by the handler. */
  method BacktestAllWS(q: Query, reg: Registry, parse: string -> Result<int>, m: Market,
                       clock: Clock, sqrt: real -> real) returns (r: Result<seq<WsMessage>>)
    requires Runnable(reg.strategies)
    ensures QueryString(q, "strategy") !in reg.strategies ==> r == Err("strategy not found")
    ensures var plan := PlanFor(QueryString(q, "strategy"), QueryString(q, "start"), QueryString(q, "end"),
                                WsSettings(q), reg.strategies, parse, clock.y1990, clock.now);
      match plan
      case Err(msg) => r == Err(msg)
      case Ok(p) => r == Ok(Stream(Collected(m, p, sqrt, |m.codes|)))
  {
    var plan := PlanFor(QueryString(q, "strategy"), QueryString(q, "start"), QueryString(q, "end"),
                        WsSettings(q), reg.strategies, parse, clock.y1990, clock.now);
    if plan.Err? {
      return Err(plan.msg);
    }
    var msgs := StreamAll(m, plan.value, sqrt);
    r := Ok(msgs);
  }
}
