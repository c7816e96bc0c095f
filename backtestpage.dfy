/** The back-test page: a streamed run over every code, fed by a WebSocket
    one frame at a time, and the back test of a single code. */
module BacktestPage {
  import opened Common
  import opened Js
  import Api
  import Route

  /** The form's values; a date is present when the range picker has one. */
  datatype Form = Form(strategy: string, start: Option<string>, end: Option<string>,
                       cash: Json, size: Json, feeRate: Json, minFee: Json,
                       slippage: Json, stopLoss: Json, takeProfit: Json)

  /** `typeof v === 'number' ? v / 10000 : undefined`: the form's fee rate
      is in basis points, the request's a fraction. */
  function FeeRate(v: Json): (r: Json)
    ensures r.Num? <==> v.Num?
    ensures !v.Num? ==> r == Undefined
    ensures r.Num? ==> r.n * 10000.0 == v.n
  {
    if v.Num? then Num(v.n / 10000.0) else Undefined
  }

  /** What a number parameter of the socket query becomes: present exactly
      when it is a number. */
  function NumberOf(v: Json): (r: Option<real>)
    ensures r.Some? <==> v.Num?
    ensures r.Some? ==> r.value == v.n
  {
    if v.Num? then Some(v.n) else None
  }

  /** The parameters `onRun` hands to `backtestAllWS`. */
  function RunRequest(f: Form): (r: Api.AllReq)
    ensures r.strategy == f.strategy && r.start == f.start && r.end == f.end
    ensures r.feeRate.Some? <==> f.feeRate.Num?
    ensures r.feeRate.Some? ==> r.feeRate.value * 10000.0 == f.feeRate.n
  {
    Api.AllReq(f.strategy, f.start, f.end, NumberOf(f.cash), NumberOf(f.size), NumberOf(FeeRate(f.feeRate)),
               NumberOf(f.minFee), NumberOf(f.slippage), NumberOf(f.stopLoss), NumberOf(f.takeProfit))
  }

  /** The body `onRunSymbol` posts for one code. */
  datatype SymbolReq = SymbolReq(strategy: string, symbol: string, start: Option<string>, end: Option<string>,
                                 cash: Json, size: Json, feeRate: Json, minFee: Json,
                                 slippage: Json, stopLoss: Json, takeProfit: Json)

  /** The single-code request: the form's values, the chosen code and the
      fee rate as a fraction. */
  function SymbolRequest(f: Form, symbol: string): (r: SymbolReq)
    ensures r.symbol == symbol && r.strategy == f.strategy && r.start == f.start && r.end == f.end
    ensures r.feeRate.Num? <==> f.feeRate.Num?
    ensures r.feeRate.Num? ==> r.feeRate.n * 10000.0 == f.feeRate.n
  {
    SymbolReq(f.strategy, symbol, f.start, f.end, f.cash, f.size, FeeRate(f.feeRate), f.minFee,
              f.slippage, f.stopLoss, f.takeProfit)
  }

  // ---------------------------------------------------------------------
  // The streamed run.

  /** The three averages the page shows; `{}` leaves all three undefined. */
  datatype Metrics = Metrics(ret: Json, dd: Json, sharpe: Json)

  const NoMetrics := Metrics(Undefined, Undefined, Undefined)

  /** What one frame means to the message handler. */
  datatype Frame = Ignored | ItemFrame(item: Json) | SummaryFrame(metrics: Metrics)

  /** `String(ev.data || '{}')` for a text frame. */
  function FrameText(data: string): string {
    if data == "" then "{}" else data
  }

  /** The handler's reading of a parsed frame: reading a property of null
      throws and is swallowed, an item frame needs a truthy item, a summary
      frame gives the averages under their wire names. */
  function ReadFrame(msg: Json): (f: Frame)
    ensures f.ItemFrame? <==>
      !Nullish(msg) && Field(msg, "type") == Str("item") && Truthy(Field(msg, "item"))
    ensures f.ItemFrame? ==> f.item == Field(msg, "item")
    ensures f.SummaryFrame? <==> !Nullish(msg) && Field(msg, "type") == Str("summary")
    ensures f.SummaryFrame? ==>
      f.metrics == Metrics(Field(msg, "avg_return"), Field(msg, "avg_max_drawdown"), Field(msg, "avg_sharpe"))
  {
    if Nullish(msg) then Ignored
    else if Field(msg, "type") == Str("item") && Truthy(Field(msg, "item")) then ItemFrame(Field(msg, "item"))
    else if Field(msg, "type") == Str("summary") then
      SummaryFrame(Metrics(Field(msg, "avg_return"), Field(msg, "avg_max_drawdown"), Field(msg, "avg_sharpe")))
    else Ignored
  }

  /** A frame's meaning from its text; text that does not parse is ignored. */
  function Classify(data: string, parse: string -> Outcome<Json>): (f: Frame)
    ensures parse(FrameText(data)).Throws? ==> f == Ignored
    ensures parse(FrameText(data)).Returns? ==> f == ReadFrame(parse(FrameText(data)).value)
  {
    match parse(FrameText(data))
    case Throws(_) => Ignored
    case Returns(msg) => ReadFrame(msg)
  }

  /** What the stream handlers touch: the list, the metrics, the loading
      flag, the referenced socket (`wsRef.current`), how many sockets were
      opened (socket k is the k-th), and those `close()` was called on. */
  datatype View = View(list: seq<Json>, metrics: Metrics, loading: bool,
                       ws: Option<nat>, sockets: nat, closed: set<nat>)

  /** `onRun`: close and forget the referenced socket, clear the list and
      the metrics, set loading, then open the next socket, or clear loading
      when opening it throws. */
  function Start(v: View, fails: bool): (w: View)
    ensures v.ws.Some? ==> v.ws.value in w.closed
    ensures w.closed == v.closed + (if v.ws.Some? then {v.ws.value} else {})
    ensures w.list == [] && w.metrics == NoMetrics && w.loading == !fails
    ensures fails ==> w.ws.None? && w.sockets == v.sockets
    ensures !fails ==> w.ws == Some(v.sockets) && w.sockets == v.sockets + 1
  {
    var v1 := if v.ws.Some? then v.(closed := v.closed + {v.ws.value}, ws := None) else v;
    var v2 := v1.(list := [], metrics := NoMetrics, loading := true);
    if fails then v2.(loading := false) else v2.(ws := Some(v2.sockets), sockets := v2.sockets + 1)
  }

  /** `onmessage` on socket s: an item is appended, in arrival order and
      without de-duplication; a summary sets the metrics, clears loading,
      closes s and forgets the reference. */
  function Step(v: View, s: nat, f: Frame): View {
    match f
    case Ignored => v
    case ItemFrame(it) => v.(list := v.list + [it])
    case SummaryFrame(m) => v.(metrics := m, loading := false, ws := None, closed := v.closed + {s})
  }

  /** `onerror` and `onclose`, whichever socket they come from. */
  function Ended(v: View): View {
    v.(loading := false)
  }

  /** The socket bookkeeping `onRun` keeps: the referenced socket is the
      newest and is still open, and every other socket the page opened has
      been closed by it. */
  ghost predicate Tidy(ws: Option<nat>, sockets: nat, closed: set<nat>) {
    (ws.Some? ==> ws.value + 1 == sockets && ws.value !in closed)
    && (forall k :: k in closed ==> k < sockets)
    && (forall k :: 0 <= k < sockets && ws != Some(k) ==> k in closed)
  }

  ghost predicate TidyView(v: View) {
    Tidy(v.ws, v.sockets, v.closed)
  }

  /** Starting a run keeps the bookkeeping: at most one socket is ever
      referenced, and the one replaced has been closed. */
  lemma StartKeepsTidy(v: View, fails: bool)
    requires TidyView(v)
    ensures TidyView(Start(v, fails))
  {
    var w := Start(v, fails);
    forall k | 0 <= k < w.sockets && w.ws != Some(k)
      ensures k in w.closed
    {
      if v.ws == Some(k) {
        assert k in w.closed;
      }
    }
  }

  /** Only a socket that is still open delivers frames, and under the
      bookkeeping that is the referenced one: a summary always ends the
      current run. */
  lemma OpenSocketIsCurrent(v: View, s: nat)
    requires TidyView(v) && s < v.sockets && s !in v.closed
    ensures v.ws == Some(s)
  {
  }

  /** A frame from an open socket keeps the bookkeeping. */
  lemma StepKeepsTidy(v: View, s: nat, f: Frame)
    requires TidyView(v) && s < v.sockets && s !in v.closed
    ensures TidyView(Step(v, s, f))
  {
    OpenSocketIsCurrent(v, s);
  }

  /** A socket that was replaced still fires its close event, and that
      clears loading while the new run is streaming. */
  lemma ReplacedSocketCloseEndsLoading()
    ensures var v := Start(Start(View([], NoMetrics, false, None, 0, {}), false), false);
      v.loading && v.ws == Some(1) && 0 in v.closed
      && !Ended(v).loading && Ended(v).ws == Some(1)
  {
  }

  /** The frames of socket s, in order. */
  function Feed(v: View, s: nat, fs: seq<Frame>): View
    decreases |fs|
  {
    if |fs| == 0 then v else Step(Feed(v, s, fs[..|fs| - 1]), s, fs[|fs| - 1])
  }

  lemma FeedLast(v: View, s: nat, fs: seq<Frame>, f: Frame)
    ensures Feed(v, s, fs + [f]) == Step(Feed(v, s, fs), s, f)
  {
    assert (fs + [f])[..|fs|] == fs;
  }

  /** The route's frame as JSON: `{type: 'item', item}` or
      `{type: 'summary', avg_return, avg_sharpe, avg_max_drawdown, count}`. */
  function EncodeFrame(m: Route.WsMessage): Json
    requires Sendable(m)
  {
    match m
    case ItemMsg(it) => Obj(map["type" := Str("item"), "item" := Api.EncodeItem(it)])
    case SummaryMsg(r, sh, dd, c) =>
      Obj(map["type" := Str("summary"), "avg_return" := Num(r), "avg_sharpe" := Num(sh.val),
              "avg_max_drawdown" := Num(dd), "count" := Num(c as real)])
  }

  /** A frame whose numbers are all finite, so it encodes. */
  predicate Sendable(m: Route.WsMessage) {
    match m
    case ItemMsg(it) => it.sharpe.Finite?
    case SummaryMsg(_, sh, _, _) => sh.Finite?
  }

  /** An item frame of the route reads back as that item. */
  lemma ItemFrameReadsBack(it: Route.BacktestItem)
    requires it.sharpe.Finite?
    ensures ReadFrame(EncodeFrame(Route.ItemMsg(it))) == ItemFrame(Api.EncodeItem(it))
  {
    var msg := EncodeFrame(Route.ItemMsg(it));
    assert Field(msg, "type") == Str("item");
    assert Field(msg, "item") == Api.EncodeItem(it);
  }

  /** A summary frame of the route reads back as its three averages. */
  lemma SummaryFrameReadsBack(r: real, sh: Float, dd: real, c: int)
    requires sh.Finite?
    ensures ReadFrame(EncodeFrame(Route.SummaryMsg(r, sh, dd, c))) == SummaryFrame(Metrics(Num(r), Num(dd), Num(sh.val)))
  {
    var msg := EncodeFrame(Route.SummaryMsg(r, sh, dd, c));
    assert Field(msg, "type") == Str("summary");
    assert Field(msg, "avg_return") == Num(r) && Field(msg, "avg_max_drawdown") == Num(dd);
    assert Field(msg, "avg_sharpe") == Num(sh.val);
  }

  /** How the handler reads the route's frames once parsed. */
  function Received(ms: seq<Route.WsMessage>): (fs: seq<Frame>)
    requires forall i :: 0 <= i < |ms| ==> Sendable(ms[i])
    ensures |fs| == |ms|
    decreases |ms|
  {
    if |ms| == 0 then [] else Received(ms[..|ms| - 1]) + [ReadFrame(EncodeFrame(ms[|ms| - 1]))]
  }

  lemma ReceivedLast(ms: seq<Route.WsMessage>, m: Route.WsMessage)
    requires forall i :: 0 <= i < |ms| ==> Sendable(ms[i])
    requires Sendable(m)
    ensures Received(ms + [m]) == Received(ms) + [ReadFrame(EncodeFrame(m))]
  {
    assert (ms + [m])[..|ms|] == ms;
  }

  /** Every item frame encodes when every item's Sharpe ratio is finite. */
  lemma {:induction false} FramesSendable(items: seq<Route.BacktestItem>)
    requires forall i :: 0 <= i < |items| ==> items[i].sharpe.Finite?
    ensures forall i :: 0 <= i < |items| ==> Sendable(Route.Frames(items)[i])
    decreases |items|
  {
    if |items| > 0 {
      var init := items[..|items| - 1];
      FramesSendable(init);
      assert Route.Frames(items) == Route.Frames(init) + [Route.ItemMsg(items[|items| - 1])];
    }
  }

  /** One item frame per row. */
  function ItemFrames(rows: seq<Json>): (fs: seq<Frame>) {
    seq(|rows|, i requires 0 <= i < |rows| => ItemFrame(rows[i]))
  }

  /** Item frames append their rows to the list, in order, and touch
      nothing else. */
  lemma {:induction false} FeedAppends(v: View, s: nat, rows: seq<Json>)
    ensures Feed(v, s, ItemFrames(rows)) == v.(list := v.list + rows)
    decreases |rows|
  {
    if |rows| == 0 {
      assert v.list + rows == v.list;
    } else {
      var init := rows[..|rows| - 1];
      FeedAppends(v, s, init);
      assert ItemFrames(rows) == ItemFrames(init) + [ItemFrame(rows[|rows| - 1])];
      FeedLast(v, s, ItemFrames(init), ItemFrame(rows[|rows| - 1]));
      assert v.list + rows == (v.list + init) + [rows[|rows| - 1]];
    }
  }

  /** The route's item frames read back as the items it encodes. */
  lemma {:induction false} ReceivedItems(items: seq<Route.BacktestItem>)
    requires forall i :: 0 <= i < |items| ==> items[i].sharpe.Finite?
    requires forall i :: 0 <= i < |items| ==> Sendable(Route.Frames(items)[i])
    ensures Received(Route.Frames(items)) == ItemFrames(Api.ItemRows(items))
    decreases |items|
  {
    if |items| > 0 {
      var init, last := items[..|items| - 1], items[|items| - 1];
      FramesSendable(init);
      ReceivedItems(init);
      var ms := Route.Frames(init);
      assert Route.Frames(items) == ms + [Route.ItemMsg(last)];
      ReceivedLast(ms, Route.ItemMsg(last));
      ItemFrameReadsBack(last);
      ItemRowsLast(init, last);
      assert ItemFrames(Api.ItemRows(items)) == ItemFrames(Api.ItemRows(init)) + [ItemFrame(Api.EncodeItem(last))];
    }
  }

  /** Item frames append the items as the route encodes them, one by one. */
  lemma FeedItems(v: View, s: nat, items: seq<Route.BacktestItem>)
    requires forall i :: 0 <= i < |items| ==> items[i].sharpe.Finite?
    requires forall i :: 0 <= i < |items| ==> Sendable(Route.Frames(items)[i])
    ensures Feed(v, s, Received(Route.Frames(items))) == v.(list := v.list + Api.ItemRows(items))
  {
    ReceivedItems(items);
    FeedAppends(v, s, Api.ItemRows(items));
  }

  lemma ItemRowsLast(init: seq<Route.BacktestItem>, last: Route.BacktestItem)
    requires forall i :: 0 <= i < |init| ==> init[i].sharpe.Finite?
    requires last.sharpe.Finite?
    ensures Api.ItemRows(init + [last]) == Api.ItemRows(init) + [Api.EncodeItem(last)]
  {
    var items := init + [last];
    assert forall i :: 0 <= i < |init| ==> items[i] == init[i];
  }

  /** A run fed the item frames and then a summary frame. */
  lemma FeedRun(u: View, s: nat, items: seq<Route.BacktestItem>, sum: Route.WsMessage)
    requires forall i :: 0 <= i < |items| ==> items[i].sharpe.Finite?
    requires sum.SummaryMsg? && sum.avgSharpe.Finite?
    ensures forall i :: 0 <= i < |items| + 1 ==> Sendable((Route.Frames(items) + [sum])[i])
    ensures var w := Feed(u, s, Received(Route.Frames(items) + [sum]));
      w == u.(list := u.list + Api.ItemRows(items), metrics := Metrics(Num(sum.avgReturn), Num(sum.avgMaxDD), Num(sum.avgSharpe.val)),
               loading := false, ws := None, closed := u.closed + {s})
  {
    var ms := Route.Frames(items);
    FramesSendable(items);
    forall i | 0 <= i < |items| + 1
      ensures Sendable((ms + [sum])[i])
    {
      if i < |ms| {
        assert (ms + [sum])[i] == ms[i];
      }
    }
    FeedItems(u, s, items);
    var mid := Feed(u, s, Received(ms));
    ReceivedLast(ms, sum);
    var last := ReadFrame(EncodeFrame(sum));
    SummaryFrameReadsBack(sum.avgReturn, sum.avgSharpe, sum.avgMaxDD, sum.count);
    assert last == SummaryFrame(Metrics(Num(sum.avgReturn), Num(sum.avgMaxDD), Num(sum.avgSharpe.val)));
    FeedLast(u, s, Received(ms), last);
    assert Feed(u, s, Received(ms + [sum])) == Step(mid, s, last);
  }

  /** A run that receives the whole stream of the route ends with the list
      holding every streamed item in order, the summary's three averages,
      loading cleared, the socket closed and no socket referenced. */
  lemma RunReadsStream(v: View, all: seq<Route.BacktestItem>)
    requires forall i :: 0 <= i < |all| ==> all[i].sharpe.Finite?
    requires Route.Stream(all)[|all|].avgSharpe.Finite?
    ensures forall i :: 0 <= i < |Route.Stream(all)| ==> Sendable(Route.Stream(all)[i])
    ensures var sum := Route.Stream(all)[|all|];
      var w := Feed(Start(v, false), v.sockets, Received(Route.Stream(all)));
      w.list == Api.ItemRows(all)
      && w.metrics == Metrics(Num(sum.avgReturn), Num(sum.avgMaxDD), Num(sum.avgSharpe.val))
      && !w.loading && w.ws.None? && v.sockets in w.closed
  {
    var sum := Route.Stream(all)[|all|];
    assert Route.Stream(all) == Route.Frames(all) + [sum];
    FeedRun(Start(v, false), v.sockets, all, sum);
  }

  // ---------------------------------------------------------------------
  // The single-code back test.

  /** A trade as the chart receives it: `{ index: t.index, side: t.side, price: t.price }`. */
  datatype TradeRow = TradeRow(index: Json, side: Json, price: Json)

  function TradeRowOf(t: Json): (r: Outcome<TradeRow>)
    ensures r.Throws? <==> Nullish(t)
    ensures r.Returns? ==> r.value == TradeRow(Field(t, "index"), Field(t, "side"), Field(t, "price"))
  {
    if Nullish(t) then Throws(TypeError) else Returns(TradeRow(Field(t, "index"), Field(t, "side"), Field(t, "price")))
  }

  function TradeReader(): Json -> Outcome<TradeRow> {
    t => TradeRowOf(t)
  }

  /** `res.trades.map(...)`: it throws unless `trades` is an array without
      null entries, and then keeps each trade's index, side and price. */
  function TradesOf(trades: Json): (r: Outcome<seq<TradeRow>>)
    ensures r.Returns? <==> trades.Arr? && forall t :: t in trades.items ==> !Nullish(t)
    ensures r.Returns? ==> |r.value| == |trades.items|
    ensures r.Returns? ==> forall i :: 0 <= i < |trades.items| ==>
      r.value[i] == TradeRow(Field(trades.items[i], "index"), Field(trades.items[i], "side"), Field(trades.items[i], "price"))
  {
    if trades.Arr? then Api.MapRows(trades.items, TradeReader()) else Throws(TypeError)
  }

  /** The page. The fields after `notices` belong to the single-code test. */
  class Page {
    var screenList: seq<Json>
    var metrics: Metrics
    var loading: bool
    var ws: Option<nat>
    var sockets: nat
    var closed: set<nat>
    /** The `message.error` texts, oldest first. */
    var notices: seq<string>
    /** The parameters of every socket opened, in order. */
    var requests: seq<Api.AllReq>
    var equity: Json
    var cash: Json
    var trades: seq<TradeRow>
    var candles: seq<Api.KlineRow>
    var indexSymbol: string
    var indexCandles: seq<Api.KlineRow>

    constructor ()
      ensures Current() == View([], NoMetrics, false, None, 0, {}) && Valid()
      ensures notices == [] && requests == [] && indexSymbol == "SSE"
      ensures equity == Arr([]) && cash == Arr([]) && trades == [] && candles == [] && indexCandles == []
    {
      screenList, metrics, loading := [], NoMetrics, false;
      ws, sockets, closed := None, 0, {};
      notices, requests := [], [];
      equity, cash, trades, candles := Arr([]), Arr([]), [], [];
      indexSymbol, indexCandles := "SSE", [];
    }

    /** The fields the stream handlers touch. */
    function Current(): View
      reads this`screenList, this`metrics, this`loading, this`ws, this`sockets, this`closed
    {
      View(screenList, metrics, loading, ws, sockets, closed)
    }

    ghost predicate Valid()
      reads this`ws, this`sockets, this`closed, this`requests
    {
      Tidy(ws, sockets, closed) && |requests| == sockets
    }

    /** `onRun`. `fails` is what opening the socket throws, if anything. */
    method OnRun(f: Form, fails: Option<Exception>, builtin: Exception -> string)
      requires Valid()
      modifies this`screenList, this`metrics, this`loading, this`ws, this`sockets, this`closed,
               this`notices, this`requests
      ensures Valid()
      ensures Current() == Start(old(Current()), fails.Some?)
      ensures fails.None? ==> requests == old(requests) + [RunRequest(f)] && notices == old(notices)
      ensures fails.Some? ==>
        requests == old(requests) && notices == old(notices) + [ErrorText(fails.value, "回测失败", builtin)]
    {
      StartKeepsTidy(Current(), fails.Some?);
      if ws.Some? {
        closed := closed + {ws.value};
        ws := None;
      }
      screenList := [];
      metrics := NoMetrics;
      loading := true;
      if fails.Some? {
        loading := false;
        notices := notices + [ErrorText(fails.value, "回测失败", builtin)];
      } else {
        ws := Some(sockets);
        sockets := sockets + 1;
        requests := requests + [RunRequest(f)];
      }
    }

    /** `onmessage` of socket s, which the browser calls only while s is
        open. */
    method OnMessage(s: nat, data: string, parse: string -> Outcome<Json>)
      requires Valid() && s < sockets && s !in closed
      modifies this`screenList, this`metrics, this`loading, this`ws, this`closed
      ensures Valid()
      ensures Current() == Step(old(Current()), s, Classify(data, parse))
    {
      StepKeepsTidy(Current(), s, Classify(data, parse));
      var text := if data == "" then "{}" else data;
      var parsed := parse(text);
      if parsed.Throws? {
        return;
      }
      var msg := parsed.value;
      if Nullish(msg) {
        return;
      }
      if Field(msg, "type") == Str("item") && Truthy(Field(msg, "item")) {
        screenList := screenList + [Field(msg, "item")];
      } else if Field(msg, "type") == Str("summary") {
        metrics := Metrics(Field(msg, "avg_return"), Field(msg, "avg_max_drawdown"), Field(msg, "avg_sharpe"));
        loading := false;
        closed := closed + {s};
        ws := None;
      }
    }

    /** `onerror` of any socket the page opened. */
    method OnError(s: nat)
      requires Valid() && s < sockets
      modifies this`loading, this`notices
      ensures Valid()
      ensures Current() == Ended(old(Current())) && notices == old(notices) + ["回测WS连接失败"]
    {
      loading := false;
      notices := notices + ["回测WS连接失败"];
    }

    /** `onclose` of any socket the page opened. */
    method OnClose(s: nat)
      requires Valid() && s < sockets
      modifies this`loading
      ensures Valid() && Current() == Ended(old(Current()))
    {
      loading := false;
    }

    /** `onRunSymbol(sym)`. A step that throws (the back test, reading its
        trades, the code's klines) stops the rest and leaves a notice; the
        fields set before it keep their new values. A failed index fetch
        only empties the index candles. */
    method OnRunSymbol(sym: string, f: Form, backtest: SymbolReq -> Outcome<Json>,
                       klines: (string, Option<string>, Option<string>) -> Outcome<seq<Api.KlineRow>>,
                       builtin: Exception -> string)
      modifies this`loading, this`notices, this`equity, this`cash, this`metrics, this`trades,
               this`candles, this`indexCandles
      ensures !loading
      ensures var res := backtest(SymbolRequest(f, sym));
        var fallback := "个股回测失败";
        match res
        case Throws(e) =>
          notices == old(notices) + [ErrorText(e, fallback, builtin)] && equity == old(equity)
          && cash == old(cash) && metrics == old(metrics) && trades == old(trades)
          && candles == old(candles) && indexCandles == old(indexCandles)
        case Returns(r) =>
          if Nullish(r) then
            notices == old(notices) + [ErrorText(TypeError, fallback, builtin)] && equity == old(equity)
            && cash == old(cash) && metrics == old(metrics) && trades == old(trades)
            && candles == old(candles) && indexCandles == old(indexCandles)
          else
            equity == Field(r, "equity") && cash == Field(r, "cash")
            && metrics == Metrics(Field(r, "return"), Field(r, "max_drawdown"), Field(r, "sharpe"))
            && match TradesOf(Field(r, "trades"))
              case Throws(e) =>
                notices == old(notices) + [ErrorText(e, fallback, builtin)] && trades == old(trades)
                && candles == old(candles) && indexCandles == old(indexCandles)
              case Returns(ts) =>
                trades == ts
                && match klines(sym, f.start, f.end)
                  case Throws(e) =>
                    notices == old(notices) + [ErrorText(e, fallback, builtin)] && candles == old(candles)
                    && indexCandles == old(indexCandles)
                  case Returns(c) =>
                    candles == c && notices == old(notices)
                    && indexCandles == IndexRows(klines(indexSymbol, f.start, f.end))
    {
      loading := true;
      var fallback := "个股回测失败";
      var res := backtest(SymbolRequest(f, sym));
      if res.Throws? {
        notices := notices + [ErrorText(res.error, fallback, builtin)];
        loading := false;
        return;
      }
      var r := res.value;
      if Nullish(r) {
        notices := notices + [ErrorText(TypeError, fallback, builtin)];
        loading := false;
        return;
      }
      equity := Field(r, "equity");
      cash := Field(r, "cash");
      metrics := Metrics(Field(r, "return"), Field(r, "max_drawdown"), Field(r, "sharpe"));
      var ts := TradesOf(Field(r, "trades"));
      if ts.Throws? {
        notices := notices + [ErrorText(ts.error, fallback, builtin)];
        loading := false;
        return;
      }
      trades := ts.value;
      LoadCandles(sym, f, klines, fallback, builtin);
      loading := false;
    }

    /** The last steps of `onRunSymbol`: the code's klines, then the
        index's, whose failure only empties the index candles. */
    method LoadCandles(sym: string, f: Form, klines: (string, Option<string>, Option<string>) -> Outcome<seq<Api.KlineRow>>,
                       fallback: string, builtin: Exception -> string)
      modifies this`notices, this`candles, this`indexCandles
      ensures match klines(sym, f.start, f.end)
        case Throws(e) =>
          notices == old(notices) + [ErrorText(e, fallback, builtin)] && candles == old(candles)
          && indexCandles == old(indexCandles)
        case Returns(c) =>
          candles == c && notices == old(notices)
          && indexCandles == IndexRows(klines(indexSymbol, f.start, f.end))
    {
      var c := klines(sym, f.start, f.end);
      if c.Throws? {
        notices := notices + [ErrorText(c.error, fallback, builtin)];
        return;
      }
      candles := c.value;
      indexCandles := IndexRows(klines(indexSymbol, f.start, f.end));
    }

    /** The index selector's `onChange`: the new index, and its klines or
        none when the fetch throws. */
    method OnIndexChange(val: string, f: Form, klines: (string, Option<string>, Option<string>) -> Outcome<seq<Api.KlineRow>>)
      modifies this`indexSymbol, this`indexCandles
      ensures indexSymbol == val && indexCandles == IndexRows(klines(val, f.start, f.end))
    {
      indexSymbol := val;
      indexCandles := IndexRows(klines(val, f.start, f.end));
    }
  }

  /** The index candles of a fetch: its rows, or none when it throws. */
  function IndexRows(o: Outcome<seq<Api.KlineRow>>): (r: seq<Api.KlineRow>)
    ensures o.Throws? ==> r == []
    ensures o.Returns? ==> r == o.value
  {
    if o.Throws? then [] else o.value
  }
}
