/** ATR-multiple stop-loss and take-profit levels (src/risk_manager.py). */
module RiskManager {
  import opened Rounding

  datatype Risk = Risk(stopLoss: real, takeProfit: real)

  /** The stop sits two ATRs below the price, the target four ATRs above it. */
  const STOP_ATR_MULTIPLE: real := 2.0
  const TARGET_ATR_MULTIPLE: real := 4.0

  /** The levels before rounding, as the source computes them for a positive ATR. */
  function UnroundedRisk(price: real, atr: real): Risk
  {
    Risk(price - STOP_ATR_MULTIPLE * atr, price + TARGET_ATR_MULTIPLE * atr)
  }

  /**
   * `compute_risk`: a non-positive ATR collapses both levels to the price exactly
   * (no rounding); otherwise both levels are the unrounded ones rounded to 2 dp.
   * Total: defined for every pair of reals.
   */
  function ComputeRisk(price: real, atr: real): (r: Risk)
    ensures atr <= 0.0 ==> r.stopLoss == price && r.takeProfit == price
    ensures atr > 0.0 ==> r.stopLoss == Round2(price - 2.0 * atr) && r.takeProfit == Round2(price + 4.0 * atr)
    ensures atr > 0.0 ==> r.stopLoss <= r.takeProfit
  {
    if atr <= 0.0 then
      Risk(price, price)
    else
      var raw := UnroundedRisk(price, atr);
      Round2Monotone(raw.stopLoss, raw.takeProfit);
      Risk(Round2(raw.stopLoss), Round2(raw.takeProfit))
  }

  /** Before rounding a positive ATR puts the price strictly between the levels, at a 2:1 reward to risk. */
  lemma UnroundedLevelsBracketPrice(price: real, atr: real)
    requires atr > 0.0
    ensures var raw := UnroundedRisk(price, atr);
      && raw.stopLoss < price < raw.takeProfit
      && raw.takeProfit - price == 2.0 * (price - raw.stopLoss)
  {
  }

  /** Rounding moves each level by at most half a cent from its unrounded value. */
  lemma RoundedLevelsNearUnrounded(price: real, atr: real)
    requires atr > 0.0
    ensures var r, raw := ComputeRisk(price, atr), UnroundedRisk(price, atr);
      && raw.stopLoss - 0.005 <= r.stopLoss <= raw.stopLoss + 0.005
      && raw.takeProfit - 0.005 <= r.takeProfit <= raw.takeProfit + 0.005
  {
  }

  /** The two cases the tests assert: (100, 5) and (100, 0). */
  lemma ComputeRiskExamples()
    ensures ComputeRisk(100.0, 5.0) == Risk(90.0, 120.0)
    ensures ComputeRisk(100.0, 0.0) == Risk(100.0, 100.0)
  {
    Round2Exact(9000);
    Round2Exact(12000);
    assert 100.0 - 2.0 * 5.0 == 9000 as real / 100.0;
    assert 100.0 + 4.0 * 5.0 == 12000 as real / 100.0;
  }

  /**
   * The strict bracket holds only before rounding: the price itself is not rounded,
   * so a tiny ATR can round the stop above the entry price.
   */
  lemma RoundedStopCanExceedPrice()
    ensures ComputeRisk(1.006, 0.0001).stopLoss == 1.01
    ensures ComputeRisk(1.006, 0.0001).stopLoss > 1.006
  {
    var x := 1.006 - 2.0 * 0.0001;
    assert x * 100.0 == 100.58;
    assert (x * 100.0).Floor == 100;
  }
}
