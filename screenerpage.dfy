/** The screener page: a screener run lists the picks and loads price
    charts for the first 60 of them, six symbols at a time, skipping those
    already cached; scrolling near the bottom loads the next 60. */
module ScreenerPage {
  import opened Common
  import opened Js
  import Mock
  import Api

  const ChunkSize := 6
  const PageSize := 60

  /** A chart marker read from a back-test trade: `{ index: t.index, side: t.side }`. */
  datatype Mark = Mark(index: Json, side: Json)

  /** A cached chart: the mock candles and mock trades (kept whole), or the
      fetched rows and the markers read from the back test. */
  datatype Entry =
    | MockEntry(bars: seq<Mock.Bar>, trades: seq<Mock.Trade>)
    | FetchedEntry(rows: seq<Api.KlineRow>, marks: seq<Mark>)

  /** The back test a real load asks for. */
  datatype BacktestReq = BacktestReq(strategy: string, symbol: string, cash: real, size: int)

  /** What the calls out resolve to or throw: `getKlines({ code })`,
      `backtest(req)`, and the draws of the mock generators per symbol. */
  datatype Env = Env(klines: string -> Outcome<seq<Api.KlineRow>>, backtest: BacktestReq -> Outcome<Json>,
                     candleDraws: string -> Mock.Random, backtestDraws: string -> Mock.Random,
                     day: int -> string)

  /** The request of every real load: cash 100000 and size 10. */
  function RequestFor(strategy: string, symbol: string): BacktestReq {
    BacktestReq(strategy, symbol, 100000.0, 10)
  }

  /** `{ candles: mockCandles(symbol), trades: mockBacktest().trades }`,
      with `bars` the generator's default count; the mock back test always
      trades the same four times. */
  function MockFor(symbol: string, env: Env, bars: nat): Entry {
    MockEntry(Mock.Candles(symbol, bars, env.candleDraws(symbol), env.day), Mock.MockTrades)
  }

  /** `({ index: t.index, side: t.side })`, which throws on a null trade. */
  function MarkOf(t: Json): (r: Outcome<Mark>)
    ensures r.Throws? <==> Nullish(t)
  {
    if Nullish(t) then Throws(TypeError) else Returns(Mark(Field(t, "index"), Field(t, "side")))
  }

  function MarkReader(): Json -> Outcome<Mark> {
    t => MarkOf(t)
  }

  /** `bt.trades.map(...)`: it throws unless `bt` is an object whose
      `trades` is an array without null entries. */
  function MarksOf(bt: Json): (r: Outcome<seq<Mark>>)
    ensures r.Returns? <==>
      !Nullish(bt) && Field(bt, "trades").Arr? && forall t :: t in Field(bt, "trades").items ==> !Nullish(t)
    ensures r.Returns? ==> var ts := Field(bt, "trades").items;
      |r.value| == |ts| && forall i :: 0 <= i < |ts| ==> r.value[i] == Mark(Field(ts[i], "index"), Field(ts[i], "side"))
  {
    if Nullish(bt) then Throws(TypeError)
    else
      var ts := Field(bt, "trades");
      if ts.Arr? then Api.MapRows(ts.items, MarkReader()) else Throws(TypeError)
  }

  /** The entry one symbol gets: the mock one in mock mode, and in real mode
      the fetched rows and markers, or the mock one when a fetch throws. */
  function EntryFor(symbol: string, mockMode: bool, strategy: string, env: Env, bars: nat): (r: Entry)
    ensures r.MockEntry? ==> r == MockFor(symbol, env, bars)
    ensures mockMode ==> r == MockFor(symbol, env, bars)
    ensures r.FetchedEntry? ==>
      env.klines(symbol) == Returns(r.rows)
      && env.backtest(RequestFor(strategy, symbol)).Returns?
      && MarksOf(env.backtest(RequestFor(strategy, symbol)).value) == Returns(r.marks)
  {
    if mockMode then MockFor(symbol, env, bars)
    else match env.klines(symbol)
      case Throws(_) => MockFor(symbol, env, bars)
      case Returns(cs) =>
        match env.backtest(RequestFor(strategy, symbol))
        case Throws(_) => MockFor(symbol, env, bars)
        case Returns(bt) =>
          match MarksOf(bt)
          case Throws(_) => MockFor(symbol, env, bars)
          case Returns(ms) => FetchedEntry(cs, ms)
  }

  /** In real mode, a symbol whose fetches all succeed gets exactly what
      they returned. */
  lemma RealLoadKeepsFetched(symbol: string, strategy: string, env: Env, bars: nat, cs: seq<Api.KlineRow>, bt: Json)
    requires env.klines(symbol) == Returns(cs) && env.backtest(RequestFor(strategy, symbol)) == Returns(bt)
    requires MarksOf(bt).Returns?
    ensures EntryFor(symbol, false, strategy, env, bars) == FetchedEntry(cs, MarksOf(bt).value)
  {
  }

  /** The entry each symbol would get in this mode and environment. */
  function Fetcher(mockMode: bool, strategy: string, env: Env, bars: nat): string -> Entry {
    s => EntryFor(s, mockMode, strategy, env, bars)
  }

  /** One item of a batch: a cached symbol is skipped. */
  function LoadOne<V>(cache: map<string, V>, symbol: string, fetch: string -> V): map<string, V> {
    if symbol in cache then cache else cache[symbol := fetch(symbol)]
  }

  /** The cache after the items in order. */
  function Loaded<V>(cache: map<string, V>, items: seq<string>, fetch: string -> V): map<string, V>
    decreases |items|
  {
    if |items| == 0 then cache
    else LoadOne(Loaded(cache, items[..|items| - 1], fetch), items[|items| - 1], fetch)
  }

  /** One more item on a prefix of the items. */
  lemma LoadedStep<V>(cache: map<string, V>, items: seq<string>, j: nat, fetch: string -> V)
    requires j < |items|
    ensures Loaded(cache, items[..j + 1], fetch) == LoadOne(Loaded(cache, items[..j], fetch), items[j], fetch)
  {
    assert items[..j + 1][..j] == items[..j];
  }

  /** Loading only adds: every cached entry stays as it was, every item
      gets an entry, a new entry is that item's, and nothing else is added. */
  lemma {:induction false} LoadedAddsOnly<V>(cache: map<string, V>, items: seq<string>, fetch: string -> V)
    ensures var r := Loaded(cache, items, fetch);
      r.Keys == cache.Keys + (set s | s in items)
      && (forall k :: k in cache ==> r[k] == cache[k])
      && (forall k :: k in r && k !in cache ==> r[k] == fetch(k))
    decreases |items|
  {
    if |items| > 0 {
      var front := items[..|items| - 1];
      LoadedAddsOnly(cache, front, fetch);
      assert items == front + [items[|items| - 1]];
      assert (set s | s in items) == (set s | s in front) + {items[|items| - 1]};
    }
  }

  function Min(a: int, b: int): int {
    if a <= b then a else b
  }

  /** `s.slice(a, b)` for the non-negative bounds used here: both clamped to
      the length, empty when they cross. */
  function Slice<T>(s: seq<T>, a: nat, b: nat): seq<T> {
    var lo, hi := Min(a, |s|), Min(b, |s|);
    if lo < hi then s[lo..hi] else []
  }

  /** The number of batches for n items. */
  function Batches(n: nat): nat {
    (n + ChunkSize - 1) / ChunkSize
  }

  /** k batches cover n items exactly when the last one is not empty. */
  lemma BatchCount(n: nat, k: nat)
    requires ChunkSize * k >= n && (k == 0 || ChunkSize * (k - 1) < n)
    ensures Batches(n) == k
  {
  }

  /** The caches committed after the first k batches of the items. */
  ghost function Commits<V>(snapshot: map<string, V>, items: seq<string>, fetch: string -> V, k: nat): (r: seq<map<string, V>>)
    ensures |r| == k
    ensures forall b :: 0 <= b < k ==> r[b] == Loaded(snapshot, items[..Min(ChunkSize * (b + 1), |items|)], fetch)
  {
    if k == 0 then [] else Commits(snapshot, items, fetch, k - 1) + [Loaded(snapshot, items[..Min(ChunkSize * k, |items|)], fetch)]
  }

  /** The page state the handlers change. `data` holds the symbols of the
      listed picks; `commits` records each `setCharts`. */
  class Page {
    var data: seq<string>
    var charts: map<string, Entry>
    var visibleCount: nat
    var loading: bool
    var loadingMore: bool
    var useMock: bool
    /** The error messages shown, oldest first. */
    var notices: seq<string>
    /** The `charts` of the render that last registered the scroll handler:
        its effect is registered again only after a render in which the
        list, the visible count or the mode changed. */
    var scrollCharts: map<string, Entry>
    /** How many bars the mock generator is asked for. */
    const mockBars: nat
    /** How many picks a run shows and a scroll adds. */
    const pageSize: nat
    ghost var commits: seq<map<string, Entry>>

    constructor ()
      ensures data == [] && charts == map[] && visibleCount == PageSize
      ensures !loading && !loadingMore && useMock && commits == [] && mockBars == Mock.DefaultBars && pageSize == PageSize
      ensures notices == [] && scrollCharts == map[] && SnapshotInCache()
    {
      mockBars := Mock.DefaultBars;
      pageSize := PageSize;
      data := [];
      charts := map[];
      visibleCount := PageSize;
      loading := false;
      loadingMore := false;
      useMock := true;
      commits := [];
      notices := [];
      scrollCharts := map[];
    }

    /** The scroll handler's charts are always a part of the current cache:
        every later commit starts from a cache that holds them. */
    ghost predicate SnapshotInCache()
      reads this`charts, this`scrollCharts
    {
      forall k :: k in scrollCharts ==> k in charts && charts[k] == scrollCharts[k]
    }

    /** The mode switch: a change of mode registers the scroll handler
        again, with the current charts. */
    method SetUseMock(on: bool)
      modifies this`useMock, this`scrollCharts
      requires SnapshotInCache()
      ensures useMock == on && SnapshotInCache()
      ensures scrollCharts == if on != old(useMock) then charts else old(scrollCharts)
    {
      if on != useMock {
        useMock := on;
        scrollCharts := charts;
      }
    }

    /** `loadChartsFor(items, mockMode, strategy)` starting from `snapshot`,
        the `charts` its closure saw: after each batch of six the cache so
        far is committed; with no items nothing is committed. */
    method LoadChartsFor(snapshot: map<string, Entry>, items: seq<string>, mockMode: bool, strategy: string, env: Env)
      modifies this`charts, this`commits
      ensures var fetch := Fetcher(mockMode, strategy, env, mockBars);
        charts == (if |items| == 0 then old(charts) else Loaded(snapshot, items, fetch))
        && commits == old(commits) + Commits(snapshot, items, fetch, Batches(|items|))
    {
      ghost var fetch := Fetcher(mockMode, strategy, env, mockBars);
      var next := snapshot;
      var i, k := 0, 0;
      while i < |items|
        invariant i == ChunkSize * k && (k == 0 || ChunkSize * (k - 1) < |items|)
        invariant next == Loaded(snapshot, items[..Min(i, |items|)], fetch)
        invariant commits == old(commits) + Commits(snapshot, items, fetch, k)
        invariant i == 0 ==> charts == old(charts)
        invariant i > 0 ==> charts == next
        decreases |items| - i
      {
        var hi := Min(i + ChunkSize, |items|);
        next := LoadBatch(snapshot, next, items, i, hi, mockMode, strategy, env, mockBars);
        charts := next;
        commits := commits + [next];
        i, k := i + ChunkSize, k + 1;
      }
      assert items[..Min(i, |items|)] == items;
      BatchCount(|items|, k);
    }

    /** One batch, `items[lo..hi]`, item by item, on the cache the
        earlier items left. */
    static method LoadBatch(ghost snapshot: map<string, Entry>, cache: map<string, Entry>, items: seq<string>,
                            lo: nat, hi: nat, mockMode: bool, strategy: string, env: Env, bars: nat)
      returns (next: map<string, Entry>)
      requires lo <= hi <= |items|
      requires cache == Loaded(snapshot, items[..lo], Fetcher(mockMode, strategy, env, bars))
      ensures next == Loaded(snapshot, items[..hi], Fetcher(mockMode, strategy, env, bars))
    {
      next := cache;
      for j := lo to hi
        invariant next == Loaded(snapshot, items[..j], Fetcher(mockMode, strategy, env, bars))
      {
        LoadedStep(snapshot, items, j, Fetcher(mockMode, strategy, env, bars));
        next := LoadEntry(next, items[j], mockMode, strategy, env, bars);
      }
    }

    /** One item of a batch, calling the generators and the fetches. */
    static method LoadEntry(cache: map<string, Entry>, symbol: string, mockMode: bool, strategy: string, env: Env, bars: nat)
      returns (next: map<string, Entry>)
      ensures next == LoadOne(cache, symbol, Fetcher(mockMode, strategy, env, bars))
    {
      if symbol in cache {
        return cache;
      }
      if !mockMode {
        var cs := env.klines(symbol);
        if cs.Returns? {
          var bt := env.backtest(RequestFor(strategy, symbol));
          if bt.Returns? {
            var ms := MarksOf(bt.value);
            if ms.Returns? {
              return cache[symbol := FetchedEntry(cs.value, ms.value)];
            }
          }
        }
      }
      var e := MockChart(symbol, env, bars);
      next := cache[symbol := e];
    }

    /** The mock chart: both generators run, and the back test gives only
        its trades. */
    static method MockChart(symbol: string, env: Env, bars: nat) returns (e: Entry)
      ensures e == MockFor(symbol, env, bars)
    {
      var candles := Mock.MockCandles(symbol, bars, env.candleDraws(symbol), env.day);
      var bt := Mock.MockBacktest(env.backtestDraws(symbol));
      assert bt.trades == Mock.MockTrades;
      e := MockEntry(candles, bt.trades);
    }

    /** `onRun`: list the picks (the mock ones, or the screener's rows,
        kept here as their symbols), show 60 and load charts for the first
        60 from the current cache. A screener call that throws leaves list,
        count and charts as they were and shows its message, or "选股失败".
        The new list registers the scroll handler again at the next render:
        a real-mode load reaches that render at its first fetch, before it
        commits a new chart, and a mock-mode load, which awaits nothing but
        settled promises, only after it has finished. */
    method OnRun(strategy: string, pickDraws: Mock.Random, screened: Outcome<seq<Api.Pick>>, show: Json -> string,
                 env: Env, builtin: Exception -> string)
      modifies this
      requires SnapshotInCache()
      ensures !loading && loadingMore == old(loadingMore) && useMock == old(useMock)
      ensures useMock ==> data == Symbols(Mock.Screener(pickDraws, pageSize)) && visibleCount == pageSize
      ensures !useMock && screened.Returns? ==> data == Keys(screened.value, show) && visibleCount == pageSize
      ensures !useMock && screened.Throws? ==>
        data == old(data) && visibleCount == old(visibleCount) && charts == old(charts) && commits == old(commits)
        && notices == old(notices) + [ErrorText(screened.error, "选股失败", builtin)]
      ensures useMock || screened.Returns? ==> notices == old(notices)
      ensures useMock || screened.Returns? ==>
        charts == ScrollCache(old(charts), Slice(data, 0, pageSize), Fetcher(useMock, strategy, env, mockBars))
      ensures useMock ==> scrollCharts == charts
      ensures !useMock ==> scrollCharts == if screened.Returns? then old(charts) else old(scrollCharts)
      ensures SnapshotInCache()
    {
      loading := true;
      if useMock {
        var list := Symbols(Mock.Screener(pickDraws, pageSize));
        data := list;
        visibleCount := pageSize;
        LoadChartsFor(charts, Slice(list, 0, pageSize), true, strategy, env);
        scrollCharts := charts;
      } else if screened.Returns? {
        data := Keys(screened.value, show);
        visibleCount := pageSize;
        scrollCharts := charts;
        LoadChartsFor(charts, Slice(data, 0, pageSize), false, strategy, env);
        ScrollKeepsCharts(scrollCharts, Slice(data, 0, pageSize), Fetcher(false, strategy, env, mockBars));
      } else {
        notices := notices + [ErrorText(screened.error, "选股失败", builtin)];
      }
      loading := false;
    }

    /** `onScroll`: nothing unless the page is near the bottom, no load
        runs and there is data; then the next up to 60 symbols are loaded
        and the visible count moves to the end of them, never past the
        list. The load starts from the charts the handler captured, not
        from the current cache, so a chart committed since then and not in
        the slice is lost. A new count registers the handler again with the
        cache the load left. */
    method OnScroll(nearBottom: bool, strategy: string, env: Env)
      modifies this
      requires SnapshotInCache()
      ensures !nearBottom || old(loadingMore) || |old(data)| == 0 ==>
        charts == old(charts) && visibleCount == old(visibleCount) && loadingMore == old(loadingMore)
        && commits == old(commits) && scrollCharts == old(scrollCharts)
      ensures nearBottom && !old(loadingMore) && |old(data)| > 0 ==>
        visibleCount == Min(old(visibleCount) + pageSize, |data|) && visibleCount <= |data| && !loadingMore
        && charts == ScrollCacheAsWritten(old(scrollCharts), old(charts), Slice(data, old(visibleCount), visibleCount),
                                          Fetcher(useMock, strategy, env, mockBars))
        && scrollCharts == (if visibleCount != old(visibleCount) then charts else old(scrollCharts))
      ensures visibleCount > old(visibleCount) ==>
        (forall k :: k in old(scrollCharts) ==> k in charts && charts[k] == old(scrollCharts)[k])
        && (forall k :: k in charts <==> k in old(scrollCharts) || k in Slice(data, old(visibleCount), visibleCount))
      ensures data == old(data) && useMock == old(useMock) && loading == old(loading) && notices == old(notices)
      ensures SnapshotInCache()
    {
      if !nearBottom || loadingMore || |data| == 0 {
        return;
      }
      loadingMore := true;
      var nextCount := Min(visibleCount + pageSize, |data|);
      var slice := Slice(data, visibleCount, nextCount);
      LoadChartsFor(scrollCharts, slice, useMock, strategy, env);
      ScrollKeepsCharts(old(scrollCharts), slice, Fetcher(useMock, strategy, env, mockBars));
      if nextCount != visibleCount {
        scrollCharts := charts;
      }
      visibleCount := nextCount;
      loadingMore := false;
    }
  }

  /** The symbols of the mock picks, in their sorted order. */
  function Symbols(picks: seq<Mock.Pick>): (r: seq<string>)
    ensures |r| == |picks| && forall i :: 0 <= i < |picks| ==> r[i] == picks[i].symbol
  {
    if |picks| == 0 then [] else Symbols(picks[..|picks| - 1]) + [picks[|picks| - 1].symbol]
  }

  /** The cache keys of screened rows: `item.symbol` as a property name. */
  function Keys(picks: seq<Api.Pick>, show: Json -> string): (r: seq<string>)
    ensures |r| == |picks| && forall i :: 0 <= i < |picks| ==> r[i] == Display(picks[i].symbol, show)
  {
    if |picks| == 0 then [] else Keys(picks[..|picks| - 1], show) + [Display(picks[|picks| - 1].symbol, show)]
  }

  /** The cache a load of the slice leaves when it starts from `charts`. */
  function ScrollCache<V>(charts: map<string, V>, slice: seq<string>, fetch: string -> V): map<string, V> {
    if |slice| == 0 then charts else Loaded(charts, slice, fetch)
  }

  /** A load from the current cache keeps every chart already loaded and
      adds one for each symbol of the slice, and only those. */
  lemma ScrollKeepsCharts<V>(charts: map<string, V>, slice: seq<string>, fetch: string -> V)
    ensures var r := ScrollCache(charts, slice, fetch);
      r.Keys == charts.Keys + (set s | s in slice) && forall k :: k in charts ==> r[k] == charts[k]
  {
    LoadedAddsOnly(charts, slice, fetch);
  }

  /** As written, the scroll handler's closure is refreshed only when the
      visible count, the list or the mode changes, so it loads from the
      `charts` of that moment: the snapshot, not the current cache. */
  function ScrollCacheAsWritten<V>(snapshot: map<string, V>, charts: map<string, V>, slice: seq<string>,
                                   fetch: string -> V): map<string, V> {
    if |slice| == 0 then charts else Loaded(snapshot, slice, fetch)
  }

  /** A run that loaded a chart for "A" after the handler took an empty
      snapshot: the first scroll, loading "B", drops "A" again. */
  lemma StaleSnapshotDropsChart(e: Entry, fetch: string -> Entry)
    ensures "A" !in ScrollCacheAsWritten(map[], map["A" := e], ["B"], fetch)
  {
    LoadedAddsOnly(map[], ["B"], fetch);
    assert (set s | s in ["B"]) == {"B"};
  }
}
