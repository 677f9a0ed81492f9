/**
 * `analyze_results` of src/analysis/results.py: total trades, win rate and profit
 * factor over the `return_pct` column, or over `forward_return_pct` when the
 * table has no `return_pct`.
 */
module ResultsAnalysis {
  import opened Wrappers
  import opened Rounding
  import opened TradeMetrics

  /** The return column the reducer reads: `return_pct` first, then `forward_return_pct`. */
  function Returns(t: Table): (c: Option<seq<real>>)
    requires t.Rectangular()
    ensures c.None? <==> t.IsEmpty() || ("return_pct" !in t.columns && "forward_return_pct" !in t.columns)
    ensures c.Some? ==> |c.value| == t.rowCount > 0
    ensures c.Some? && "return_pct" in t.columns ==> c.value == t.columns["return_pct"]
    ensures c.Some? && "return_pct" !in t.columns ==> c.value == t.columns["forward_return_pct"]
  {
    if t.IsEmpty() then None
    else if "return_pct" in t.columns then Some(t.columns["return_pct"])
    else if "forward_return_pct" in t.columns then Some(t.columns["forward_return_pct"])
    else None
  }

  /**
   * Gross profit over gross loss, rounded, when some trade lost; otherwise infinite
   * if some trade won, and 0 when no trade either won or lost.
   */
  function ProfitFactor(xs: seq<real>): (pf: Ratio)
    ensures pf == Infinite <==>
      (forall k :: 0 <= k < |xs| ==> xs[k] >= 0.0) && (exists k :: 0 <= k < |xs| && xs[k] > 0.0)
    ensures (exists k :: 0 <= k < |xs| && xs[k] < 0.0) ==>
      pf.Finite? && pf.value == Round2(SumPositive(xs) / GrossLoss(xs))
    ensures (forall k :: 0 <= k < |xs| ==> xs[k] <= 0.0) ==> pf == Finite(0.0)
    ensures pf.Finite? ==> pf.value >= 0.0
  {
    if GrossLoss(xs) > 0.0 then LossRatio(xs)
    else if SumPositive(xs) > 0.0 then Infinite
    else Finite(0.0)
  }

  /**
   * `analyze_results`: no metrics for an empty table or one without a return column;
   * otherwise one trade per row, the win rate and the profit factor of the column.
   */
  function AnalyzeResults(t: Table): (m: Metrics)
    requires t.Rectangular()
    ensures Returns(t).None? ==> m == NoMetrics
    ensures Returns(t).Some? ==>
      && m.totalTrades == t.rowCount > 0
      && m.winRate == WinRate(Returns(t).value)
      && m.profitFactor == ProfitFactor(Returns(t).value)
    ensures 0.0 <= m.winRate <= 100.0
    ensures m.profitFactor.Finite? ==> m.profitFactor.value >= 0.0
  {
    match Returns(t)
    case None => NoMetrics
    case Some(xs) => Metrics(|xs|, WinRate(xs), ProfitFactor(xs))
  }

  /** With both return columns present, `return_pct` is the one measured. */
  lemma ReturnPctPreferred(t: Table)
    requires t.Rectangular() && t.rowCount > 0
    requires "return_pct" in t.columns && "forward_return_pct" in t.columns
    ensures AnalyzeResults(t).profitFactor == ProfitFactor(t.columns["return_pct"])
    ensures AnalyzeResults(t).winRate == WinRate(t.columns["return_pct"])
  {
  }

  /** A non-empty table holding only `forward_return_pct` is measured on that column. */
  lemma ForwardOnly(xs: seq<real>)
    requires |xs| > 0
    ensures Table(|xs|, map["forward_return_pct" := xs]).Rectangular()
    ensures Returns(Table(|xs|, map["forward_return_pct" := xs])) == Some(xs)
  {
    var t := Table(|xs|, map["forward_return_pct" := xs]);
    assert "return_pct"[0] != "forward_return_pct"[0];
    assert "forward_return_pct" in t.columns;
  }

  /** Returns 10, -5, 20, -10, 5: five trades, 60% winners, profit factor 35 / 15 = 2.33. */
  lemma MixedExample()
    ensures AnalyzeResults(Table(5, map["forward_return_pct" := [10.0, -5.0, 20.0, -10.0, 5.0]]))
      == Metrics(5, 60.0, Finite(2.33))
  {
    var xs := [10.0, -5.0, 20.0, -10.0, 5.0];
    var t := Table(5, map["forward_return_pct" := xs]);
    ForwardOnly(xs);
    CountsOfMixed();
    Round2Exact(6000);
    RoundSevenThirds();
  }

  lemma CountsOfMixed()
    ensures var xs := [10.0, -5.0, 20.0, -10.0, 5.0];
      CountPositive(xs) == 3 && SumPositive(xs) == 35.0 && GrossLoss(xs) == 15.0
  {
    var xs := [10.0, -5.0, 20.0, -10.0, 5.0];
    assert xs[1..] == [-5.0, 20.0, -10.0, 5.0];
    assert xs[1..][1..] == [20.0, -10.0, 5.0];
    assert xs[1..][1..][1..] == [-10.0, 5.0];
    assert xs[1..][1..][1..][1..] == [5.0];
    assert xs[1..][1..][1..][1..][1..] == [];
  }

  lemma RoundSevenThirds()
    ensures Round2(35.0 / 15.0) == 2.33
  {
    var scaled := 35.0 / 15.0 * 100.0;
    assert scaled == 700.0 / 3.0;
    assert 233.0 <= scaled < 234.0;
    assert scaled.Floor == 233;
  }

  /** Only winners: a 100% win rate and an infinite profit factor. */
  lemma AllWinsExample()
    ensures AnalyzeResults(Table(3, map["forward_return_pct" := [10.0, 20.0, 5.0]])) == Metrics(3, 100.0, Infinite)
  {
    var xs := [10.0, 20.0, 5.0];
    ForwardOnly(xs);
    assert xs[2] > 0.0;
  }

  /** Only losers: no winners and a profit factor of 0. */
  lemma AllLossesExample()
    ensures AnalyzeResults(Table(3, map["forward_return_pct" := [-10.0, -5.0, -2.0]])) == Metrics(3, 0.0, Finite(0.0))
  {
    var xs := [-10.0, -5.0, -2.0];
    ForwardOnly(xs);
  }

  /** A table with the column but no rows yields no metrics. */
  lemma NoTradesExample()
    ensures AnalyzeResults(Table(0, map["forward_return_pct" := []])) == NoMetrics
  {
  }
}
