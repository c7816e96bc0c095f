/** The percent-return chart of a back test: each equity value as a
    percentage gain over the first one, to two decimals. The price chart
    draws the same line on its secondary axis. */
module ReturnsChart {
  import opened Common
  import opened Js

  /** `equity[0] || 1`: the first value, or 1 when that is 0. */
  function Base(equity: seq<real>): (b: real)
    requires |equity| > 0
    ensures b != 0.0
    ensures equity[0] != 0.0 ==> b == equity[0]
  {
    if equity[0] != 0.0 then equity[0] else 1.0
  }

  /** `Number((((v / base) - 1) * 100).toFixed(2))`. */
  function Percent(v: real, base: real): real
    requires base != 0.0
  {
    Fixed((v / base - 1.0) * 100.0, 2)
  }

  /** `equity.map(v => Number((((v / base) - 1) * 100).toFixed(2)))`. */
  function ReturnLine(equity: seq<real>): (r: seq<real>)
    requires |equity| > 0
    ensures |r| == |equity|
    ensures forall i :: 0 <= i < |equity| ==> r[i] == Percent(equity[i], Base(equity))
  {
    seq(|equity|, i requires 0 <= i < |equity| => Percent(equity[i], Base(equity)))
  }

  /** What the chart is given: the x axis and the one line. */
  datatype ReturnsOption = ReturnsOption(x: seq<int>, ret: seq<real>)

  /** The component: nothing for an empty equity curve. */
  function Chart(equity: seq<real>): (o: Option<ReturnsOption>)
    ensures o.None? <==> |equity| == 0
    ensures o.Some? ==> o.value.x == Indices(|equity|) && o.value.ret == ReturnLine(equity)
  {
    if |equity| == 0 then None else Some(ReturnsOption(Indices(|equity|), ReturnLine(equity)))
  }

  /** The curve starts at 0% whenever its first value is not 0. */
  lemma FirstReturnZero(equity: seq<real>)
    requires |equity| > 0 && equity[0] != 0.0
    ensures ReturnLine(equity)[0] == 0.0
  {
    var b := Base(equity);
    assert b == equity[0];
    DivUnique(1.0, b, b);
    assert (equity[0] / b - 1.0) * 100.0 == 0.0;
    FixedExact(0.0, 2, 0);
  }

  /** With a positive base the line keeps the order of the equity values:
      a higher balance never shows a lower return. */
  lemma ReturnsFollowEquity(equity: seq<real>, i: int, j: int)
    requires 0 <= i < |equity| && 0 <= j < |equity|
    requires Base(equity) > 0.0 && equity[i] <= equity[j]
    ensures ReturnLine(equity)[i] <= ReturnLine(equity)[j]
  {
    var b := Base(equity);
    ScaleMonotone(equity[i], equity[j], b);
    assert equity[i] / b - 1.0 <= equity[j] / b - 1.0;
    ScaleMonotone(equity[i] / b - 1.0, equity[j] / b - 1.0, 100.0);
    FixedMonotone((equity[i] / b - 1.0) * 100.0, (equity[j] / b - 1.0) * 100.0, 2);
  }

  /** With a positive base, a balance at or above the base shows a return
      of at least 0%, and one below it a return of at most 0%. */
  lemma ReturnSign(equity: seq<real>, i: int)
    requires 0 <= i < |equity| && Base(equity) > 0.0
    ensures equity[i] >= Base(equity) ==> ReturnLine(equity)[i] >= 0.0
    ensures equity[i] <= Base(equity) ==> ReturnLine(equity)[i] <= 0.0
  {
    var b := Base(equity);
    var y := (equity[i] / b - 1.0) * 100.0;
    FixedExact(0.0, 2, 0);
    if equity[i] >= b {
      ScaleMonotone(b, equity[i], b);
      assert b / b == 1.0;
      ScaleMonotone(0.0, equity[i] / b - 1.0, 100.0);
      FixedMonotone(0.0, y, 2);
    }
    if equity[i] <= b {
      ScaleMonotone(equity[i], b, b);
      assert b / b == 1.0;
      ScaleMonotone(equity[i] / b - 1.0, 0.0, 100.0);
      FixedMonotone(y, 0.0, 2);
    }
  }
}
