# agent-trader backtesting core in Dafny

This project models the deterministic backtesting pipeline of agent-trader, a single-ticker walk-forward backtester for daily OHLCV bars.

- **Backtester** (`backtester.py`, `run_backtest`). The walk-forward loop:
  - skips days without a full lookback;
  - applies the market-regime filter;
  - scores the previous `lookback` rows and logs every evaluated day;
  - on a final score of at least 7.0, takes stop/target levels, classifies the outcome over the next 20 rows, and records the 20-row forward return.

  It is modelled as the imperative method `RunBacktest`, with a `for` loop that appends to the two output lists. The method is proved against the specification functions `Logs` and `Trades`. These map the per-day entry `LogAt` and the per-day trade `TradeAt` over the recursive day lists `LoggedDays` and `TradedDays`. `LogsStep` and `TradesStep` state what one visited day appends. The lemmas about the day lists characterise:
  - which days are logged or traded;
  - their order;
  - the threshold;
  - the log/trade correspondence.
- **PatternScorer** (`src/pattern_scorer.py`). `ScorerConfig` with its scale factors and defaults, the relative-strength, volume-surge, SMA and gated inverse-volatility components, and `score`. Each component is proved to lie in its range and to vanish or saturate where the source says. The total is proved bounded by the rounded sum of the maxima.
- **RiskManager** (`src/risk_manager.py`). `compute_risk`: two ATRs below and four ATRs above the price, rounded to 2 dp, collapsing to the price for a non-positive ATR.
- **DataPreprocessor** (`src/data_preprocessor.py`):
  - true range and the simple-mean ATR;
  - `_normalize_window`, modelled as a method that writes two columns into a `WindowFrame` object. The window it writes to is an explicit `.copy()` of the rows (`src/data_preprocessor.py:87`), so it is a fresh object that shares nothing with the input series;
  - `preprocess_data`, modelled as a method that builds a fresh frame, proved against the pure function `Preprocess`.
- **ResultsAnalysis** (`src/analysis/results.py`) and **LegacyAnalysis** (`src/analyze_results.py`). The two `analyze_results` reducers (total trades, win rate, profit factor) with their shared helpers in **TradeMetrics**. The lemmas show exactly where the two reducers disagree.

The shared modules are:
- `Wrappers`: `Option`, where `None` stands for NaN or a missing value.
- `Rounding`: Python's `round(x, 2)` on exact reals, half to even.
- `Bars`: the OHLCV row and column helpers.

Modelling conventions:
- Prices and volumes are Dafny `real`.
- A NaN is `None`. A comparison against a NaN is false, so `Option` levels and indicators never trigger a comparison.
- `float("inf")` is the `Infinite` case of `TradeMetrics.Ratio`.
- Dates are day numbers.

The glue between the modules is passed in as function parameters: the enrichment of the raw series, the scorer, the risk model, and pandas' median. The source's calls do not match the signatures of the functions it imports, as listed under "Left out".

Behaviour of the code a reader might not expect; the model keeps it:
- **Outcome rule.** The outcome is not first-touch. A stop touch anywhere in the 20-row window beats a target touch, even an earlier one (`backtester.py:139-146`). `FirstTouch` is the first-touch reading. `ClassifyVersusFirstTouch` and `TargetFirstStillStopLoss` show where the two agree and a window where they differ.
- **First-row true range.** The first row's true range is high − low, not missing, because the row-wise max skips the NaN terms.
- **Forward return.** The forward return is computed for every trade, not only for held ones.
- **Zero entry price.** A zero entry price gives a non-finite forward return (`None`).
- **Rounding versus the bracket.** After rounding, the stop can lie above the entry price (`RoundedStopCanExceedPrice`). Only the unrounded levels bracket the price strictly.
- **Relative-strength variant.** Only the relative-strength variant of the momentum component exists.
- **Window conventions.** The loop's window excludes the current day. `preprocess_data`'s window ends at and includes the target date.

## Model

| member | source | states |
|---|---|---|
| Backtester.RunBacktest | backtester.py:74-164 | The two output lists are those of `Backtest`. Both are empty when the raw series is shorter than lookback + 20 + 50 or the enriched one is shorter than lookback + 20. There are never more trades than daily logs. |
| Backtester.ScoreWindowRows | backtester.py:115 | The scorer window is exactly `lookback` rows, `df[i-lookback+k]`, whose last row is day i−1, so day i is excluded. A negative lookback gives an empty slice. |
| Backtester.ClassifyMeaning | backtester.py:138-146 | STOP_LOSS_HIT iff some forward row's low is at or below a defined stop. TAKE_PROFIT_HIT iff no row touches the stop and some row's high reaches a defined target. HOLD_20_DAYS iff no row touches either level. |
| Backtester.ForwardReturnPct | backtester.py:148-149 | The forward return is undefined exactly for a zero entry price, where the division has no value. |
| Backtester.ForwardReturnPctMeaning | backtester.py:148-160 | With a non-zero entry price the recorded return is within 0.005 of (final − entry) / entry × 100. For a positive entry price it is non-negative when the price did not fall and non-positive when it did not rise. |
| Backtester.Horizon | backtester.py:93 | A series of at least 20 rows gives `len(df) − 20` visited days. A shorter series gives none. |
| Backtester.TradesAtMostLogs | backtester.py:131-162 | After any number of visited days there are at most as many trades as daily logs. |
| Backtester.LoggedDays | backtester.py:93-133 | Every logged day among the first n visited is below n and has a full lookback. |
| Backtester.LoggedDaysAreEvaluated | backtester.py:93-133 | Day j is logged iff j ≥ lookback and the regime filter lets it through. Logged days are strictly increasing. |
| Backtester.LogsStep | backtester.py:114-133 | Visiting an evaluated day appends exactly that day's entry (date, price, indicators, score) to the daily log. Visiting any other day leaves the log unchanged. |
| Backtester.TradedDays | backtester.py:93-135 | Every trading day among the first n visited is below n and has a full lookback. |
| Backtester.TradedDaysAreTriggered | backtester.py:93-148 | Day j opens a trade iff it is logged and its final score is ≥ 7.0. Trading days are strictly increasing and satisfy lookback ≤ j and j + 20 < len(df), so row j + 20 exists. |
| Backtester.TradesStep | backtester.py:135-162 | Visiting a logged day whose score reaches the threshold appends exactly the trade built on that day: levels from the risk model at its price and ATR, the outcome over rows i+1..i+20, the forward return to row i+20, and the entry price rounded to 2 dp. Visiting any other day leaves the trade list unchanged. |
| Backtester.TradesMeetThreshold | backtester.py:135 | Every trade's pattern score is at least 7.0. |
| Backtester.TradesAreLogged | backtester.py:124-162 | Every trade has a daily log entry with its date and final score. |
| Backtester.OutputsInDateOrder | backtester.py:93-162 | On a series with increasing dates, both output lists are in strictly ascending date order. |
| Backtester.RegimeSkipMeaning | backtester.py:101-112 | No regime data, a date absent from it, or an undefined close or SMA-200 never skips. Otherwise the day is skipped iff close < SMA-200. |
| Backtester.RegimeSkippedDayNeverLogged | backtester.py:108-109 | A day the regime filter skips is in neither the logged days nor the trading days. |
| Backtester.FirstTouch | backtester.py:139-146 | The first-touch reference rule: HOLD iff no row touches either level. STOP_LOSS_HIT means some row touches the stop and no earlier row touches the target. TAKE_PROFIT_HIT means some row touches the target and neither it nor any earlier row touches the stop. |
| Backtester.ClassifyVersusFirstTouch | backtester.py:139-146 | The rule as written agrees with first touch on every stop win and every hold. Its take-profit verdicts are first-touch take-profit verdicts. |
| Backtester.TargetFirstStillStopLoss | backtester.py:139-146 | A 20-row window that reaches the target on its first row and the stop on its last is TAKE_PROFIT_HIT under first touch, but STOP_LOSS_HIT as written. |
| PatternScorer.Clamp | src/pattern_scorer.py:51 | `min(max(0, x), hi)` lies in [0, hi], is x inside the range, 0 below it and hi above it. |
| PatternScorer.PeriodReturn | src/pattern_scorer.py:41-47 | A zero close `lookback` rows ago gives return 0 instead of a division by zero. With a positive past close, the return is positive iff the price rose and negative iff it fell. |
| PatternScorer.RelativeStrengthScore | src/pattern_scorer.py:33-51 | The score is in [0, max]. It is 0 when either window is shorter than lookback + 1 or the market window is empty, and 0 when the stock does not outperform the market. It is the max at 5% outperformance or more. |
| PatternScorer.RelativeStrengthScoreLinear | src/pattern_scorer.py:49-51 | With a relative return between 0 and 5%, the score is exactly the relative return × max / 0.05, the unclamped linear value. |
| PatternScorer.VolumeScore | src/pattern_scorer.py:54-61 | The score is in [0, max] and is 0 when the median volume is not positive. With a positive median it is 0 when the current volume is at most the median, and the max when the current volume is at least twice the median. |
| PatternScorer.VolumeScoreLinear | src/pattern_scorer.py:58-60 | With the current volume between the median and twice the median, the score is exactly (current / median − 1) × max. |
| PatternScorer.VolatilityScore | src/pattern_scorer.py:64-83 | The score is in [0, max]. It is 0 when relative strength ≤ 0, price ≤ 0 or ATR is undefined. With the gate open it is the max when ATR% ≤ low, and 0 when ATR% is above low and at least high. |
| PatternScorer.VolatilityScoreLinear | src/pattern_scorer.py:74-83 | With the gate open and ATR% strictly between the two targets, the score is max × (high − ATR%) / (high − low). It falls linearly from the max to 0. |
| PatternScorer.VolatilityNonIncreasingInAtr | src/pattern_scorer.py:74-83 | For a fixed price with the gate open, a larger ATR never gives a larger volatility score. |
| PatternScorer.Score | src/pattern_scorer.py:86-141 | A window shorter than lookback + 1 gives all zeros and "not enough data". Otherwise the result holds the four components, and the final score is their sum rounded to 2 dp. The SMA bonus is paid iff sma50 is defined and price > sma50. Volatility is 0 whenever relative strength ≤ 0. |
| PatternScorer.ScoreBounded | src/pattern_scorer.py:124-126 | With non-negative maxima, every component lies in [0, its max] and the final score lies in [0, round(sum of maxima)]. |
| PatternScorer.DefaultThresholdNeedsRelativeStrength | src/pattern_scorer.py:14-20 | Under the default configuration a final score of at least 7 implies a positive relative-strength score. |
| RiskManager.ComputeRisk | src/risk_manager.py:6-25 | Total on all inputs. ATR ≤ 0 gives stop = take = price exactly. ATR > 0 gives stop = round(price − 2·ATR, 2) and take = round(price + 4·ATR, 2), with stop ≤ take. |
| RiskManager.UnroundedLevelsBracketPrice | src/risk_manager.py:22-23 | Before rounding, stop < price < take and take − price = 2·(price − stop). |
| RiskManager.RoundedLevelsNearUnrounded | src/risk_manager.py:25 | Each rounded level lies within 0.005 of its unrounded value. |
| RiskManager.ComputeRiskExamples | tests/test_risk.py:6-16 | (100, 5) gives (90, 120) and (100, 0) gives (100, 100). |
| RiskManager.RoundedStopCanExceedPrice | src/risk_manager.py:22-25 | For price 1.006 and ATR 0.0001 the rounded stop is 1.01, above the price. |
| Rounding.Round2 | src/risk_manager.py:25 | `round(x, 2)` lies within half a hundredth of x. |
| Rounding.Round2Monotone | src/pattern_scorer.py:124-126 | Rounding to 2 dp preserves order. |
| Rounding.EvenIsParity | src/risk_manager.py:25 | The parity test used to break ties in round-half-to-even agrees with divisibility by 2. |
| Bars.MinOfIsLeast | src/data_preprocessor.py:29 | The column minimum is an element of the column and is at most every element. |
| Bars.MaxOfIsGreatest | src/data_preprocessor.py:30 | The column maximum is an element of the column and is at least every element. |
| DataPreprocessor.TrueRange | src/data_preprocessor.py:13-17 | TR ≥ high − low. On the first row TR = high − low. Later, TR is at least both distances from the previous close and equals one of the three terms. |
| DataPreprocessor.Atr | src/data_preprocessor.py:19 | The rolling ATR at row t is undefined iff fewer than `period` rows end at t. |
| DataPreprocessor.AtrAtLeastMeanRange | src/data_preprocessor.py:9-20 | A defined ATR is at least the mean high − low of its rows, and hence non-negative when low ≤ high on every row. |
| DataPreprocessor.Normalized | src/data_preprocessor.py:28-46 | Normalisation keeps the length. A column without spread maps to its flat sentinel on every row. |
| DataPreprocessor.NormalizedInUnitInterval | src/data_preprocessor.py:31-34 | With max > min, every normalised value lies in [0, 1], the minimum maps to 0 and the maximum to 1. |
| DataPreprocessor.NormalizeWindow | src/data_preprocessor.py:23-48 | Writes `close_normalized` (flat value 0.5) and `volume_normalized` (flat value 0.0) into the frame and leaves its rows unchanged. |
| DataPreprocessor.Locate | src/data_preprocessor.py:66-76 | Missing iff no row has the date. Unique gives the only such row. Duplicated means two rows carry the date. |
| DataPreprocessor.PrepareAt | src/data_preprocessor.py:79-97 | Success needs loc ≥ window and a defined 14-period ATR. The window then has `window` rows, rows loc−window+1..loc, and ends at the target row. |
| DataPreprocessor.PreprocessData | src/data_preprocessor.py:51-105 | Fails exactly when `Preprocess` does. On success it returns a fresh frame holding `Preprocess`'s window, both normalised columns, the price and the ATR. The input series is a value and is not modified. |
| DataPreprocessor.PreprocessSucceedsIff | src/data_preprocessor.py:66-97 | `preprocess_data` succeeds iff exactly one row has the date, at a location ≥ window with a defined 14-period ATR. |
| DataPreprocessor.PreprocessWindowEndsAtDate | src/data_preprocessor.py:86-87 | On success the window is exactly the `window` rows ending at and including the target date. |
| DataPreprocessor.PreprocessPriceAndAtrAtDate | src/data_preprocessor.py:92-93 | On success the price and ATR are the close and the 14-period ATR of the target row. |
| TradeMetrics.CountPositive | src/analysis/results.py:46 | The number of winners is at most the row count. It is 0 iff no return is positive and equals the count iff all returns are positive. Zero returns are not wins. |
| TradeMetrics.SumPositive | src/analysis/results.py:51 | Gross profit is non-negative and positive iff some return is positive. |
| TradeMetrics.SumNegative | src/analysis/results.py:47-52 | The sum of losses is non-positive and negative iff some return is negative. |
| TradeMetrics.GrossLoss | src/analysis/results.py:52 | The absolute sum of losses is non-negative and positive iff some trade lost. |
| TradeMetrics.WinRate | src/analysis/results.py:49-62 | The win rate is in [0, 100]. It is 0 when no trade won and 100 when all did. |
| TradeMetrics.LossRatio | src/analysis/results.py:54-55 | With a loss, the profit factor is finite, non-negative, round(gross profit / gross loss, 2), and 0 without winners. |
| ResultsAnalysis.Returns | src/analysis/results.py:33-43 | No column for an empty table or one with neither return column. `return_pct` is chosen when present, else `forward_return_pct`. The column has one value per row. |
| ResultsAnalysis.ProfitFactor | src/analysis/results.py:51-63 | Infinite iff no trade lost and some trade won. With a loss, the ratio rounded to 2 dp. Finite 0 when no trade won. Every finite value is ≥ 0. |
| ResultsAnalysis.AnalyzeResults | src/analysis/results.py:22-64 | An unusable table gives (0, 0.0, 0.0). Otherwise total = row count > 0, with the win rate and profit factor of the chosen column. The win rate is in [0, 100] and a finite profit factor is ≥ 0. |
| ResultsAnalysis.ReturnPctPreferred | src/analysis/results.py:37-41 | With both columns present, the metrics are those of `return_pct`. |
| ResultsAnalysis.MixedExample | tests/test_analysis.py:34-39 | Returns [10, −5, 20, −10, 5] give 5 trades, 60.0 and 2.33. The legacy reducer's test case, reused here: the table carries only `forward_return_pct`, so this reducer gives the same values. |
| ResultsAnalysis.AllWinsExample | tests/test_analysis.py:41-46 | Returns [10, 20, 5] give 3 trades, 100.0 and infinity. The legacy reducer's test case, reused here: the table carries only `forward_return_pct`, so this reducer gives the same values. |
| ResultsAnalysis.AllLossesExample | tests/test_analysis.py:48-53 | Returns [−10, −5, −2] give 3 trades, 0.0 and 0.0. The legacy reducer's test case, reused here: the table carries only `forward_return_pct`, so this reducer gives the same values. |
| ResultsAnalysis.NoTradesExample | tests/test_analysis.py:55-60 | A table with the column but no rows gives (0, 0.0, 0.0). The legacy reducer's test case, reused here: the table carries only `forward_return_pct`, so this reducer gives the same values. |
| LegacyAnalysis.Returns | src/analyze_results.py:31-32 | No column for an empty table or one without `forward_return_pct`. `return_pct` is never read. |
| LegacyAnalysis.ProfitFactor | src/analyze_results.py:41-44 | Infinite iff no trade lost, including all-zero and empty returns. With a loss, the ratio rounded to 2 dp, which is 0 for all losses. Every finite value is ≥ 0. |
| LegacyAnalysis.AnalyzeResults | src/analyze_results.py:20-50 | An unusable table gives (0, 0.0, 0.0). Otherwise total = row count > 0, with the win rate and profit factor of `forward_return_pct`. The win rate is in [0, 100] and a finite profit factor is ≥ 0. |
| LegacyAnalysis.ProfitFactorsDifferOnlyWithoutWinsOrLosses | src/analyze_results.py:44 | The two reducers' profit factors differ iff every return is zero. There this one gives infinity and the newer one 0. |
| LegacyAnalysis.AllZeroTableDisagreement | src/analyze_results.py:44 | On a non-empty table of zero returns the two reducers report infinity and 0 respectively. |
| LegacyAnalysis.ReturnPctIgnored | src/analyze_results.py:31 | A table holding only `return_pct` gives no metrics here, while the newer reducer counts its rows. |
| LegacyAnalysis.MixedExample | tests/test_analysis.py:34-39 | Returns [10, −5, 20, −10, 5] give 5 trades, 60.0 and 2.33. |
| LegacyAnalysis.AllWinsExample | tests/test_analysis.py:41-46 | Returns [10, 20, 5] give 3 trades, 100.0 and infinity. |
| LegacyAnalysis.AllLossesExample | tests/test_analysis.py:48-53 | Returns [−10, −5, −2] give 3 trades, 0.0 and 0.0. |
| LegacyAnalysis.NoTradesExample | tests/test_analysis.py:55-60 | A table with the column but no rows gives (0, 0.0, 0.0). |

## Left out

- Loading and cleaning data (`backtester.py:43-71`):
  - CSV reading, duplicate-date and timezone clean-up;
  - loading the regime file and aligning it with `reindex(..., method="ffill")`.

  The regime series enters as an optional per-date map of (close, SMA-200). Nothing is modelled beyond that map.
- Output and CLIs: writing results and logs, the `__main__` CLI of `backtester.py`, and the `main` functions of both analyzers. These are file I/O and console output.
- Glue whose calls do not match the functions they name. The loop takes these as function parameters and is proved for any of them:
  - the scorer called with four positional arguments;
  - `calculate_risk_parameters`, which the risk module does not define;
  - `preprocess_data` called with indicator periods;
  - an `sma50` column that no shown function creates.
- Pandas' median: it is a function parameter of the scorer. Nothing about its value is assumed.
- The LLM-backed scorer, agents, prompts, audit log, `signal_quality.py` and the data-download scripts: network, orchestration and library statistics.
- Floating point: every quantity is an exact real.
  - Effects of binary representation, such as `round` on values like 2.675, are not modelled.
  - NaN appears only where the source produces it from indicators or regime data, and a NaN OHLCV value is not modelled. As a result, the `pd.isna(current_price_val)` and `isinstance` branches of `preprocess_data` (`src/data_preprocessor.py:96-103`) never fire in the model.
  - An infinite forward return from a zero entry price is kept as `None` and is not rounded.
- The analyzers read a table of real-valued columns. Non-numeric columns and NaN or infinite returns in the results file are not modelled.
- `pd.to_datetime` on an unparseable date string: dates are already day numbers.
- The rationale strings (`"RS(..) Vol(..) SMA(..) Volatility(..)"` and "Not enough data for N-day analysis.") are kept as the values they format, not as text. `strftime` dates are day numbers.
- ScorerConfig.relativeStrengthLookbackDays: typed `nat`, so a negative lookback, which Python would accept, is not modelled.
