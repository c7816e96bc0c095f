/** The equity chart of a back test: the equity line over bar indices, the
    cash line when there is one, and the buy and sell markers placed on the
    equity curve. */
module EquityChart {
  import opened Common
  import opened Js

  /** A trade as the chart receives it. */
  datatype Trade = Trade(index: int, side: string, price: real)

  const EquityName := "权益"
  const CashName := "现金"
  const BuyName := "买入"
  const SellName := "卖出"

  /** A marker: the bar index and `equity[index]`, which is `undefined`
      when the index is not a bar of the curve. */
  datatype Point = Point(index: int, y: Option<real>)

  datatype Series =
    | LineSeries(name: string, data: seq<real>)
    | ScatterSeries(name: string, points: seq<Point>)

  datatype EquityOption = EquityOption(x: seq<int>, series: seq<Series>)

  /** `equity[i]` in JavaScript: the value, or `undefined` off the array. */
  function At(equity: seq<real>, i: int): (r: Option<real>)
    ensures r.Some? <==> 0 <= i < |equity|
    ensures r.Some? ==> r.value == equity[i]
  {
    if 0 <= i < |equity| then Some(equity[i]) else None
  }

  function SideIs(side: string): Trade -> bool {
    (t: Trade) => t.side == side
  }

  /** `trades.filter(t => t.side === side).map(t => [t.index, equity[t.index]])`. */
  function Points(trades: seq<Trade>, side: string, equity: seq<real>): (r: seq<Point>)
    ensures |r| <= |trades|
  {
    var kept := Filter(trades, SideIs(side));
    seq(|kept|, j requires 0 <= j < |kept| => Point(kept[j].index, At(equity, kept[j].index)))
  }

  /** The markers of a side are exactly its trades, whatever their index,
      each at the equity of its bar. */
  lemma PointsAreTradesOfSide(trades: seq<Trade>, side: string, equity: seq<real>)
    ensures forall p :: p in Points(trades, side, equity) ==>
      p.y == At(equity, p.index) && exists t :: t in trades && t.side == side && t.index == p.index
    ensures forall t :: t in trades && t.side == side ==>
      Point(t.index, At(equity, t.index)) in Points(trades, side, equity)
  {
    var kept := Filter(trades, SideIs(side));
    var pts := Points(trades, side, equity);
    forall p | p in pts
      ensures p.y == At(equity, p.index) && exists t :: t in trades && t.side == side && t.index == p.index
    {
      var j :| 0 <= j < |pts| && pts[j] == p;
      assert kept[j] in kept;
    }
    forall t | t in trades && t.side == side
      ensures Point(t.index, At(equity, t.index)) in pts
    {
      assert t in kept;
      var j :| 0 <= j < |kept| && kept[j] == t;
      assert pts[j] == Point(t.index, At(equity, t.index));
    }
  }

  /** The series in drawing order: equity, cash when non-empty, then both
      scatter sides, even when they have no points. */
  function SeriesOf(equity: seq<real>, cash: seq<real>, trades: seq<Trade>): seq<Series> {
    [LineSeries(EquityName, equity)]
      + (if |cash| > 0 then [LineSeries(CashName, cash)] else [])
      + [ScatterSeries(BuyName, Points(trades, "buy", equity)),
         ScatterSeries(SellName, Points(trades, "sell", equity))]
  }

  /** The component: nothing for an empty equity curve. */
  function Chart(equity: seq<real>, cash: Option<seq<real>>, trades: Option<seq<Trade>>): (o: Option<EquityOption>)
    ensures o.None? <==> |equity| == 0
    ensures o.Some? ==> o.value.x == Indices(|equity|)
  {
    if |equity| == 0 then None
    else Some(EquityOption(Indices(|equity|), SeriesOf(equity, cash.GetOr([]), trades.GetOr([]))))
  }

  /** The equity line comes first, the cash line is drawn exactly when
      there is cash data, and the two scatter sides always close the list. */
  lemma SeriesIncluded(equity: seq<real>, cash: Option<seq<real>>, trades: Option<seq<Trade>>)
    requires |equity| > 0
    ensures var s := Chart(equity, cash, trades).value.series;
      var ts := trades.GetOr([]);
      var hasCash := cash.Some? && |cash.value| > 0;
      |s| == (if hasCash then 4 else 3)
      && s[0] == LineSeries(EquityName, equity)
      && (hasCash <==> exists j :: 0 <= j < |s| && s[j] == LineSeries(CashName, cash.GetOr([])))
      && s[|s| - 2] == ScatterSeries(BuyName, Points(ts, "buy", equity))
      && s[|s| - 1] == ScatterSeries(SellName, Points(ts, "sell", equity))
  {
    var s := Chart(equity, cash, trades).value.series;
    var hasCash := cash.Some? && |cash.value| > 0;
    if hasCash {
      assert s[1] == LineSeries(CashName, cash.value);
    }
  }
}
