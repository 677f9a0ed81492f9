/**
 * `analyze_results` of src/analyze_results.py, the older reducer: it reads only
 * `forward_return_pct`, and its profit factor is infinite whenever no trade lost.
 */
module LegacyAnalysis {
  import opened Wrappers
  import opened Rounding
  import opened TradeMetrics
  import ResultsAnalysis

  /** The only column this reducer reads. */
  function Returns(t: Table): (c: Option<seq<real>>)
    requires t.Rectangular()
    ensures c.None? <==> t.IsEmpty() || "forward_return_pct" !in t.columns
    ensures c.Some? ==> |c.value| == t.rowCount > 0 && c.value == t.columns["forward_return_pct"]
  {
    if t.IsEmpty() || "forward_return_pct" !in t.columns then None
    else Some(t.columns["forward_return_pct"])
  }

  /** Gross profit over gross loss, rounded, when some trade lost; infinite otherwise. */
  function ProfitFactor(xs: seq<real>): (pf: Ratio)
    ensures pf == Infinite <==> forall k :: 0 <= k < |xs| ==> xs[k] >= 0.0
    ensures (exists k :: 0 <= k < |xs| && xs[k] < 0.0) ==>
      pf.Finite? && pf.value == Round2(SumPositive(xs) / GrossLoss(xs))
    ensures (exists k :: 0 <= k < |xs| && xs[k] < 0.0) && (forall k :: 0 <= k < |xs| ==> xs[k] <= 0.0) ==>
      pf == Finite(0.0)
    ensures pf.Finite? ==> pf.value >= 0.0
  {
    if GrossLoss(xs) > 0.0 then LossRatio(xs) else Infinite
  }

  /**
   * `analyze_results`: no metrics for an empty table or one without
   * `forward_return_pct`; otherwise one trade per row, the win rate and the
   * profit factor of that column.
   */
  function AnalyzeResults(t: Table): (m: Metrics)
    requires t.Rectangular()
    ensures Returns(t).None? ==> m == NoMetrics
    ensures Returns(t).Some? ==>
      && m.totalTrades == t.rowCount > 0
      && m.winRate == WinRate(Returns(t).value)
      && m.profitFactor == ProfitFactor(Returns(t).value)
    ensures 0.0 <= m.winRate <= 100.0
    ensures m.profitFactor.Finite? ==> m.profitFactor.value >= 0.0
  {
    match Returns(t)
    case None => NoMetrics
    case Some(xs) => Metrics(|xs|, WinRate(xs), ProfitFactor(xs))
  }

  /**
   * The two reducers' profit factors differ exactly on returns that are all zero
   * (no win and no loss): this one says infinite, the newer one says 0.
   */
  lemma ProfitFactorsDifferOnlyWithoutWinsOrLosses(xs: seq<real>)
    ensures ProfitFactor(xs) != ResultsAnalysis.ProfitFactor(xs) <==> forall k :: 0 <= k < |xs| ==> xs[k] == 0.0
    ensures (forall k :: 0 <= k < |xs| ==> xs[k] == 0.0) ==>
      ProfitFactor(xs) == Infinite && ResultsAnalysis.ProfitFactor(xs) == Finite(0.0)
  {
    if forall k :: 0 <= k < |xs| ==> xs[k] == 0.0 {
      assert ProfitFactor(xs) == Infinite;
      assert ResultsAnalysis.ProfitFactor(xs) == Finite(0.0);
    } else {
      var k :| 0 <= k < |xs| && xs[k] != 0.0;
      if xs[k] > 0.0 {
        if forall j :: 0 <= j < |xs| ==> xs[j] >= 0.0 {
          assert ResultsAnalysis.ProfitFactor(xs) == Infinite;
        }
      }
    }
  }

  /** A non-empty table of zero returns: the two reducers disagree on its profit factor. */
  lemma AllZeroTableDisagreement(n: nat)
    requires n > 0
    ensures var t := Table(n, map["forward_return_pct" := seq(n, k => 0.0)]);
      t.Rectangular() &&
      AnalyzeResults(t).profitFactor == Infinite && ResultsAnalysis.AnalyzeResults(t).profitFactor == Finite(0.0)
  {
    var xs := seq(n, k => 0.0);
    ResultsAnalysis.ForwardOnly(xs);
    ProfitFactorsDifferOnlyWithoutWinsOrLosses(xs);
  }

  /** A table holding only `return_pct` is no input for this reducer, unlike the newer one. */
  lemma ReturnPctIgnored(xs: seq<real>)
    requires |xs| > 0
    ensures var t := Table(|xs|, map["return_pct" := xs]);
      t.Rectangular() && AnalyzeResults(t) == NoMetrics && ResultsAnalysis.AnalyzeResults(t).totalTrades == |xs|
  {
    var t := Table(|xs|, map["return_pct" := xs]);
    assert "return_pct"[0] != "forward_return_pct"[0];
    assert "return_pct" in t.columns;
  }

  lemma ForwardOnly(xs: seq<real>)
    requires |xs| > 0
    ensures Table(|xs|, map["forward_return_pct" := xs]).Rectangular()
    ensures Returns(Table(|xs|, map["forward_return_pct" := xs])) == Some(xs)
  {
    assert "forward_return_pct" in Table(|xs|, map["forward_return_pct" := xs]).columns;
  }

  /** Returns 10, -5, 20, -10, 5: five trades, 60% winners, profit factor 35 / 15 = 2.33. */
  lemma MixedExample()
    ensures AnalyzeResults(Table(5, map["forward_return_pct" := [10.0, -5.0, 20.0, -10.0, 5.0]]))
      == Metrics(5, 60.0, Finite(2.33))
  {
    ForwardOnly([10.0, -5.0, 20.0, -10.0, 5.0]);
    ResultsAnalysis.CountsOfMixed();
    Round2Exact(6000);
    ResultsAnalysis.RoundSevenThirds();
  }

  /** Only winners: a 100% win rate and an infinite profit factor. */
  lemma AllWinsExample()
    ensures AnalyzeResults(Table(3, map["forward_return_pct" := [10.0, 20.0, 5.0]])) == Metrics(3, 100.0, Infinite)
  {
    ForwardOnly([10.0, 20.0, 5.0]);
  }

  /** Only losers: no winners and a profit factor of 0. */
  lemma AllLossesExample()
    ensures AnalyzeResults(Table(3, map["forward_return_pct" := [-10.0, -5.0, -2.0]])) == Metrics(3, 0.0, Finite(0.0))
  {
    var xs := [-10.0, -5.0, -2.0];
    ForwardOnly(xs);
    assert xs[0] < 0.0;
  }

  /** A table with the column but no rows yields no metrics. */
  lemma NoTradesExample()
    ensures AnalyzeResults(Table(0, map["forward_return_pct" := []])) == NoMetrics
  {
  }
}
