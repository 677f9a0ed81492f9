/**
 * The deterministic pattern scorer (src/pattern_scorer.py): four clamped
 * components -- relative strength against a market index, volume surge, a
 * trend (SMA-50) bonus and an inverse-volatility term gated on positive
 * relative strength -- summed and rounded to 2 dp.
 */
module PatternScorer {
  import opened Wrappers
  import opened Bars
  import opened Rounding

  datatype ScorerConfig = ScorerConfig(
    relativeStrengthLookbackDays: nat,
    relativeStrengthScoreMax: real,
    volumeScoreMax: real,
    smaBonusScore: real,
    volatilityScoreMax: real,
    volatilityTargetPctLow: real,
    volatilityTargetPctHigh: real)
  {
    /** Maps a 5% relative outperformance to the maximum score. */
    function RelativeStrengthScoreScaleFactor(): real
    {
      relativeStrengthScoreMax / 0.05
    }

    /** Maps a 100% volume surge to the maximum score. */
    function VolumeScoreScaleFactor(): real
    {
      volumeScoreMax / 1.0
    }

    /** Bars the scorer needs: the lookback plus the day the return is measured from. */
    function MinDataLen(): nat
    {
      relativeStrengthLookbackDays + 1
    }

    predicate NonNegativeMaxima()
    {
      && relativeStrengthScoreMax >= 0.0
      && volumeScoreMax >= 0.0
      && smaBonusScore >= 0.0
      && volatilityScoreMax >= 0.0
    }

    function MaxTotal(): real
    {
      relativeStrengthScoreMax + volumeScoreMax + smaBonusScore + volatilityScoreMax
    }
  }

  /** The defaults of the source's dataclass. */
  const DefaultConfig: ScorerConfig := ScorerConfig(10, 4.0, 3.0, 3.0, 2.0, 1.5, 4.0)

  /** The rationale: the source's "RS(..) Vol(..) SMA(..) Volatility(..)" text, kept as its values. */
  datatype Description = NotEnoughData(days: nat) | Breakdown(rs: real, vol: real, sma: real, volatility: real)

  datatype ScoreResult = ScoreResult(
    finalScore: real,
    relativeStrengthScore: real,
    volumeScore: real,
    smaScore: real,
    volatilityScore: real,
    description: Description)

  /** Python's `min(max(0, x), hi)`. */
  function Clamp(x: real, hi: real): (r: real)
    ensures 0.0 <= hi ==> 0.0 <= r <= hi
    ensures 0.0 <= x <= hi ==> r == x
    ensures x <= 0.0 && 0.0 <= hi ==> r == 0.0
    ensures x >= hi && 0.0 <= hi ==> r == hi
  {
    var lifted := if x > 0.0 then x else 0.0;
    if lifted <= hi then lifted else hi
  }

  /**
   * The simple return from the close `lookback` bars before the last one to the last close;
   * a zero starting close yields 0 instead of a division by zero.
   */
  function PeriodReturn(bars: seq<Bar>, lookback: nat): (r: real)
    requires 1 <= lookback <= |bars|
    ensures bars[|bars| - lookback].close == 0.0 ==> r == 0.0
    ensures bars[|bars| - lookback].close > 0.0 ==>
      (r > 0.0 <==> bars[|bars| - 1].close > bars[|bars| - lookback].close)
    ensures bars[|bars| - lookback].close > 0.0 ==>
      (r < 0.0 <==> bars[|bars| - 1].close < bars[|bars| - lookback].close)
  {
    var now := bars[|bars| - 1].close;
    var ago := bars[|bars| - lookback].close;
    if ago != 0.0 then
      var r := (now - ago) / ago;
      assert ago > 0.0 ==> (r > 0.0 <==> now - ago > 0.0) && (r < 0.0 <==> now - ago < 0.0) by {
        if ago > 0.0 { assert r * ago == now - ago; }
      }
      r
    else 0.0
  }

  /** Both windows hold at least `lookback + 1` bars (an empty market window never does). */
  predicate HasRelativeStrengthData(stock: seq<Bar>, market: seq<Bar>, cfg: ScorerConfig)
  {
    !(|stock| < cfg.MinDataLen() || |market| == 0 || |market| < cfg.MinDataLen())
  }

  /** The stock's return over the lookback minus the market's. */
  function RelativeReturn(stock: seq<Bar>, market: seq<Bar>, cfg: ScorerConfig): real
    requires HasRelativeStrengthData(stock, market, cfg)
  {
    PeriodReturn(stock, cfg.MinDataLen()) - PeriodReturn(market, cfg.MinDataLen())
  }

  /**
   * `_calculate_relative_strength_score`: 0 without enough data on either side,
   * otherwise the relative return scaled so that a 5% outperformance reaches the
   * maximum, clamped to [0, max].
   */
  function RelativeStrengthScore(stock: seq<Bar>, market: seq<Bar>, cfg: ScorerConfig): (r: real)
    ensures cfg.relativeStrengthScoreMax >= 0.0 ==> 0.0 <= r <= cfg.relativeStrengthScoreMax
    ensures !HasRelativeStrengthData(stock, market, cfg) ==> r == 0.0
    ensures HasRelativeStrengthData(stock, market, cfg) && cfg.relativeStrengthScoreMax >= 0.0 ==>
      (RelativeReturn(stock, market, cfg) <= 0.0 ==> r == 0.0) &&
      (RelativeReturn(stock, market, cfg) >= 0.05 ==> r == cfg.relativeStrengthScoreMax)
  {
    if !HasRelativeStrengthData(stock, market, cfg) then 0.0
    else
      var relative := RelativeReturn(stock, market, cfg);
      var scaled := relative * cfg.RelativeStrengthScoreScaleFactor();
      ScaledClampLemma(relative, 0.05, cfg.relativeStrengthScoreMax);
      Clamp(scaled, cfg.relativeStrengthScoreMax)
  }

  /** Between no outperformance and 5% outperformance the score is linear in the relative return. */
  lemma RelativeStrengthScoreLinear(stock: seq<Bar>, market: seq<Bar>, cfg: ScorerConfig)
    requires HasRelativeStrengthData(stock, market, cfg) && cfg.relativeStrengthScoreMax >= 0.0
    requires 0.0 <= RelativeReturn(stock, market, cfg) <= 0.05
    ensures RelativeStrengthScore(stock, market, cfg) == RelativeReturn(stock, market, cfg) * (cfg.relativeStrengthScoreMax / 0.05)
  {
    ScaledClampLemma(RelativeReturn(stock, market, cfg), 0.05, cfg.relativeStrengthScoreMax);
  }

  /**
   * Linear scaling by `max / target` sends a non-positive input to at most 0 and an
   * input at or beyond the target to at least the maximum.
   */
  lemma ScaledClampLemma(x: real, target: real, max: real)
    requires target > 0.0
    ensures max >= 0.0 && x <= 0.0 ==> x * (max / target) <= 0.0
    ensures max >= 0.0 && x >= target ==> x * (max / target) >= max
    ensures max >= 0.0 && 0.0 <= x <= target ==> 0.0 <= x * (max / target) <= max
  {
    var f := max / target;
    assert f * target == max;
    if max >= 0.0 {
      assert f >= 0.0;
      if x >= target {
        assert x * f >= target * f;
      }
      if 0.0 <= x <= target {
        assert x * f <= target * f;
      }
    }
  }

  /**
   * `_calculate_volume_score`: the surge of the last volume over the window's median,
   * scaled so that a 100% surge reaches the maximum, clamped to [0, max]; 0 when the
   * median is not positive. The median itself is the caller's (pandas') function.
   */
  function VolumeScore(window: seq<Bar>, median: seq<real> -> real, cfg: ScorerConfig): (r: real)
    requires |window| > 0
    ensures cfg.volumeScoreMax >= 0.0 ==> 0.0 <= r <= cfg.volumeScoreMax
    ensures median(Volumes(window)) <= 0.0 ==> r == 0.0
    ensures median(Volumes(window)) > 0.0 && cfg.volumeScoreMax >= 0.0 ==>
      (window[|window| - 1].volume <= median(Volumes(window)) ==> r == 0.0) &&
      (window[|window| - 1].volume >= 2.0 * median(Volumes(window)) ==> r == cfg.volumeScoreMax)
  {
    var medianVol := median(Volumes(window));
    var currentVol := window[|window| - 1].volume;
    if medianVol > 0.0 then
      var surge := currentVol / medianVol - 1.0;
      SurgeSign(currentVol, medianVol);
      ScaledClampLemma(surge, 1.0, cfg.volumeScoreMax);
      Clamp(surge * cfg.VolumeScoreScaleFactor(), cfg.volumeScoreMax)
    else 0.0
  }

  /** Between no surge and a 100% surge the score is linear in the surge. */
  lemma VolumeScoreLinear(window: seq<Bar>, median: seq<real> -> real, cfg: ScorerConfig)
    requires |window| > 0 && cfg.volumeScoreMax >= 0.0
    requires 0.0 < median(Volumes(window)) <= window[|window| - 1].volume <= 2.0 * median(Volumes(window))
    ensures VolumeScore(window, median, cfg) == (window[|window| - 1].volume / median(Volumes(window)) - 1.0) * cfg.volumeScoreMax
  {
    var medianVol := median(Volumes(window));
    var surge := window[|window| - 1].volume / medianVol - 1.0;
    SurgeSign(window[|window| - 1].volume, medianVol);
    ScaledClampLemma(surge, 1.0, cfg.volumeScoreMax);
  }

  lemma SurgeSign(current: real, median: real)
    requires median > 0.0
    ensures current <= median ==> current / median - 1.0 <= 0.0
    ensures current >= 2.0 * median ==> current / median - 1.0 >= 1.0
    ensures median <= current <= 2.0 * median ==> 0.0 <= current / median - 1.0 <= 1.0
  {
    var q := current / median;
    assert q * median == current;
    if current <= median {
      assert q <= 1.0;
    }
    if current >= 2.0 * median {
      CancelPositiveFactor(q, 2.0, median, current);
    }
    if median <= current {
      CancelPositiveFactor(q, 1.0, median, current);
    }
    if current <= 2.0 * median {
      assert q <= 2.0;
    }
  }

  lemma CancelPositiveFactor(a: real, b: real, m: real, c: real)
    requires m > 0.0 && a * m == c && c >= b * m
    ensures a >= b
  {
  }

  /** ATR as a percentage of the price. */
  function AtrPct(atr: real, price: real): real
    requires price > 0.0
  {
    (atr / price) * 100.0
  }

  /** The volatility term is awarded only with positive relative strength, a positive price and a defined ATR. */
  predicate VolatilityGateOpen(price: real, atr: Option<real>, relativeStrength: real)
  {
    !(relativeStrength <= 0.0 || price <= 0.0 || atr.None?)
  }

  /**
   * `_calculate_volatility_score`: the maximum at or below the low ATR% target, 0 at or
   * above the high one, linear in between, and 0 whenever the gate is closed.
   */
  function VolatilityScore(price: real, atr: Option<real>, relativeStrength: real, cfg: ScorerConfig): (r: real)
    ensures cfg.volatilityScoreMax >= 0.0 ==> 0.0 <= r <= cfg.volatilityScoreMax
    ensures !VolatilityGateOpen(price, atr, relativeStrength) ==> r == 0.0
    ensures VolatilityGateOpen(price, atr, relativeStrength) ==>
      (AtrPct(atr.value, price) <= cfg.volatilityTargetPctLow ==> r == cfg.volatilityScoreMax) &&
      (cfg.volatilityTargetPctLow < AtrPct(atr.value, price) && cfg.volatilityTargetPctHigh <= AtrPct(atr.value, price) ==> r == 0.0)
  {
    if !VolatilityGateOpen(price, atr, relativeStrength) then 0.0
    else
      var atrPct := AtrPct(atr.value, price);
      if atrPct <= cfg.volatilityTargetPctLow then cfg.volatilityScoreMax
      else if atrPct >= cfg.volatilityTargetPctHigh then 0.0
      else
        var volRange := cfg.volatilityTargetPctHigh - cfg.volatilityTargetPctLow;
        if volRange <= 0.0 then 0.0
        else
          var q := (cfg.volatilityTargetPctHigh - atrPct) / volRange;
          InterpolationInUnit(cfg.volatilityTargetPctHigh - atrPct, volRange, cfg.volatilityScoreMax);
          assert 0.0 <= q <= 1.0;
          cfg.volatilityScoreMax * q
  }

  /** Strictly between the two ATR% targets the score falls linearly from the maximum to 0. */
  lemma VolatilityScoreLinear(price: real, atr: Option<real>, relativeStrength: real, cfg: ScorerConfig)
    requires VolatilityGateOpen(price, atr, relativeStrength)
    requires cfg.volatilityTargetPctLow < AtrPct(atr.value, price) < cfg.volatilityTargetPctHigh
    ensures VolatilityScore(price, atr, relativeStrength, cfg) ==
      cfg.volatilityScoreMax * ((cfg.volatilityTargetPctHigh - AtrPct(atr.value, price)) / (cfg.volatilityTargetPctHigh - cfg.volatilityTargetPctLow))
  {
  }

  lemma InterpolationInUnit(num: real, den: real, max: real)
    requires 0.0 <= num <= den && den > 0.0
    ensures 0.0 <= num / den <= 1.0
    ensures max >= 0.0 ==> 0.0 <= max * (num / den) <= max
  {
    var q := num / den;
    assert q * den == num;
    assert 0.0 <= q <= 1.0;
    if max >= 0.0 {
      assert max * q <= max * 1.0;
    }
  }

  /**
   * `score`: all zeros and "not enough data" for a window shorter than the lookback
   * plus one; otherwise the four components and their sum rounded to 2 dp.
   */
  function Score(
    window: seq<Bar>, market: seq<Bar>, currentPrice: real, sma50: Option<real>, atr14: Option<real>,
    cfg: ScorerConfig, median: seq<real> -> real): (r: ScoreResult)
    ensures |window| < cfg.MinDataLen() ==>
      r == ScoreResult(0.0, 0.0, 0.0, 0.0, 0.0, NotEnoughData(cfg.relativeStrengthLookbackDays))
    ensures |window| >= cfg.MinDataLen() ==>
      && r.relativeStrengthScore == RelativeStrengthScore(window, market, cfg)
      && r.volumeScore == VolumeScore(window, median, cfg)
      && r.volatilityScore == VolatilityScore(currentPrice, atr14, r.relativeStrengthScore, cfg)
      && r.finalScore == Round2(r.relativeStrengthScore + r.volumeScore + r.smaScore + r.volatilityScore)
      && r.description == Breakdown(r.relativeStrengthScore, r.volumeScore, r.smaScore, r.volatilityScore)
    ensures r.smaScore ==
      if |window| >= cfg.MinDataLen() && sma50.Some? && currentPrice > sma50.value then cfg.smaBonusScore else 0.0
    ensures r.relativeStrengthScore <= 0.0 ==> r.volatilityScore == 0.0
  {
    if |window| < cfg.MinDataLen() then
      ScoreResult(0.0, 0.0, 0.0, 0.0, 0.0, NotEnoughData(cfg.relativeStrengthLookbackDays))
    else
      var rs := RelativeStrengthScore(window, market, cfg);
      var vol := VolumeScore(window, median, cfg);
      var sma := if sma50.Some? && currentPrice > sma50.value then cfg.smaBonusScore else 0.0;
      var volatility := VolatilityScore(currentPrice, atr14, rs, cfg);
      var total := Round2(rs + vol + sma + volatility);
      ScoreResult(total, rs, vol, sma, volatility, Breakdown(rs, vol, sma, volatility))
  }

  /** With non-negative maxima every component lies in [0, its maximum] and the total in [0, round(sum of maxima)]. */
  lemma ScoreBounded(
    window: seq<Bar>, market: seq<Bar>, currentPrice: real, sma50: Option<real>, atr14: Option<real>,
    cfg: ScorerConfig, median: seq<real> -> real)
    requires cfg.NonNegativeMaxima()
    ensures var r := Score(window, market, currentPrice, sma50, atr14, cfg, median);
      && 0.0 <= r.relativeStrengthScore <= cfg.relativeStrengthScoreMax
      && 0.0 <= r.volumeScore <= cfg.volumeScoreMax
      && 0.0 <= r.smaScore <= cfg.smaBonusScore
      && 0.0 <= r.volatilityScore <= cfg.volatilityScoreMax
      && 0.0 <= r.finalScore <= Round2(cfg.MaxTotal())
  {
    var r := Score(window, market, currentPrice, sma50, atr14, cfg, median);
    Round2Exact(0);
    var sum := r.relativeStrengthScore + r.volumeScore + r.smaScore + r.volatilityScore;
    if |window| >= cfg.MinDataLen() {
      Round2Monotone(0.0, sum);
      Round2Monotone(sum, cfg.MaxTotal());
    } else {
      Round2Monotone(0.0, cfg.MaxTotal());
    }
  }

  /** For a fixed price and an open gate, a larger ATR never earns a larger volatility score. */
  lemma VolatilityNonIncreasingInAtr(price: real, atr1: real, atr2: real, relativeStrength: real, cfg: ScorerConfig)
    requires price > 0.0 && relativeStrength > 0.0 && cfg.volatilityScoreMax >= 0.0
    requires atr1 <= atr2
    ensures VolatilityScore(price, Some(atr2), relativeStrength, cfg) <= VolatilityScore(price, Some(atr1), relativeStrength, cfg)
  {
    var p1, p2 := AtrPct(atr1, price), AtrPct(atr2, price);
    assert p1 <= p2 by {
      assert atr1 / price <= atr2 / price;
    }
    var low, high, max := cfg.volatilityTargetPctLow, cfg.volatilityTargetPctHigh, cfg.volatilityScoreMax;
    if low < p1 && p2 < high {
      var d := high - low;
      assert high - p2 <= high - p1;
      var q1, q2 := (high - p1) / d, (high - p2) / d;
      assert q2 <= q1 by {
        assert q1 * d == high - p1;
        assert q2 * d == high - p2;
      }
      assert max * (q1 - q2) >= 0.0;
      assert max * q2 <= max * q1;
    }
  }

  /**
   * Under the default configuration the volume, SMA and (RS-gated) volatility terms
   * alone sum to at most 6, so a final score of 7 or more requires positive
   * relative strength.
   */
  lemma DefaultThresholdNeedsRelativeStrength(
    window: seq<Bar>, market: seq<Bar>, currentPrice: real, sma50: Option<real>, atr14: Option<real>,
    median: seq<real> -> real)
    ensures var r := Score(window, market, currentPrice, sma50, atr14, DefaultConfig, median);
      r.finalScore >= 7.0 ==> r.relativeStrengthScore > 0.0
  {
    var r := Score(window, market, currentPrice, sma50, atr14, DefaultConfig, median);
    ScoreBounded(window, market, currentPrice, sma50, atr14, DefaultConfig, median);
    if r.relativeStrengthScore <= 0.0 && |window| >= DefaultConfig.MinDataLen() {
      assert r.relativeStrengthScore + r.volumeScore + r.smaScore + r.volatilityScore <= 6.0;
    }
  }
}
