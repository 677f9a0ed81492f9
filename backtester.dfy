/**
 * The walk-forward loop of `run_backtest` (backtester.py): for every day past the
 * lookback and short of the forward horizon, apply the market-regime skip rule,
 * score the previous `lookback` rows, always log the day, and on a score at or
 * above the threshold open a trade whose outcome is read off the next 20 rows.
 *
 * The enrichment of the raw series, the scorer and the risk model are the
 * caller's functions: the source's calls to them do not match the signatures
 * of the modules it imports, so the loop is modelled against their results only.
 */
module Backtester {
  import opened Wrappers
  import opened Bars
  import opened Rounding
  import PatternScorer

  /** Rows after entry that decide a trade's outcome. */
  const FORWARD_WINDOW: nat := 20
  /** A day whose final score reaches this value opens a trade. */
  const SCORE_THRESHOLD: real := 7.0
  /** Rows the raw series needs beyond lookback and horizon before anything is done. */
  const WARMUP_ROWS: nat := 50

  /** A row of the enriched series: the bar and its (possibly NaN) SMA-50 and ATR-14. */
  datatype Row = Row(bar: Bar, sma50: Option<real>, atr14: Option<real>)

  /** The market index close and its SMA-200 on a date, after alignment; either may be NaN. */
  datatype RegimeRow = RegimeRow(close: Option<real>, sma200: Option<real>)

  /** Stop-loss and take-profit levels as the risk model returns them; NaN never compares true. */
  datatype Levels = Levels(stopLoss: Option<real>, takeProfit: Option<real>)

  datatype Outcome = StopLossHit | TakeProfitHit | Hold20Days

  datatype DailyLog = DailyLog(
    date: int, price: real, atr14: Option<real>, sma50: Option<real>, score: PatternScorer.ScoreResult)

  /** `forwardReturnPct` is `None` when the entry price is 0 (the division gives inf or NaN). */
  datatype Trade = Trade(
    entryDate: int, entryPrice: real, patternScore: real, patternDesc: PatternScorer.Description,
    stopLoss: Option<real>, takeProfit: Option<real>, outcome: Outcome, forwardReturnPct: Option<real>)

  /** `score(window_df, current_price, sma50, atr14)` */
  type Scorer = (seq<Row>, real, Option<real>, Option<real>) -> PatternScorer.ScoreResult
  /** `calculate_risk_parameters(current_price, atr14)` */
  type RiskModel = (real, Option<real>) -> Levels

  /** Everything one run of the loop reads. */
  datatype Run = Run(df: seq<Row>, regime: Option<map<int, RegimeRow>>, lookback: int, scorer: Scorer, risk: RiskModel)

  // ---------------------------------------------------------------------------
  // One day of the loop
  // ---------------------------------------------------------------------------

  /**
   * The regime filter skips a day iff the index has a row for the date, its SMA-200 is
   * defined and its close is below it. No regime data, a missing date or a NaN close
   * apply no filter.
   */
  predicate RegimeSkips(regime: Option<map<int, RegimeRow>>, date: int)
  {
    && regime.Some?
    && date in regime.value
    && regime.value[date].sma200.Some?
    && regime.value[date].close.Some?
    && regime.value[date].close.value < regime.value[date].sma200.value
  }

  /** Day `i` is scored and logged: it has a full lookback and the regime filter lets it through. */
  predicate Evaluated(run: Run, i: nat)
    requires i < |run.df|
  {
    run.lookback <= i && !RegimeSkips(run.regime, run.df[i].bar.date)
  }

  /** `df.iloc[i - lookback : i]`: the `lookback` rows before day `i`, day `i` itself excluded. */
  function ScoreWindow(df: seq<Row>, i: nat, lookback: int): seq<Row>
    requires i < |df| && lookback <= i
  {
    if lookback >= 0 then df[i - lookback .. i] else []
  }

  /** The scorer sees exactly `lookback` rows, the last of them the day before day `i`. */
  lemma ScoreWindowRows(df: seq<Row>, i: nat, lookback: int)
    requires i < |df| && lookback <= i
    ensures |ScoreWindow(df, i, lookback)| == if lookback >= 0 then lookback else 0
    ensures forall k :: 0 <= k < |ScoreWindow(df, i, lookback)| ==> ScoreWindow(df, i, lookback)[k] == df[i - lookback + k]
    ensures lookback > 0 ==> ScoreWindow(df, i, lookback)[lookback - 1] == df[i - 1]
  {
  }

  /** The daily log entry of an evaluated day. */
  function LogAt(run: Run, i: nat): DailyLog
    requires i < |run.df| && run.lookback <= i
  {
    var row := run.df[i];
    var score := run.scorer(ScoreWindow(run.df, i, run.lookback), row.bar.close, row.sma50, row.atr14);
    DailyLog(row.bar.date, row.bar.close, row.atr14, row.sma50, score)
  }

  predicate Triggered(run: Run, i: nat)
    requires i < |run.df| && run.lookback <= i
  {
    LogAt(run, i).score.finalScore >= SCORE_THRESHOLD
  }

  function Lows(rows: seq<Row>): (xs: seq<real>)
    ensures |xs| == |rows| && forall k :: 0 <= k < |rows| ==> xs[k] == rows[k].bar.low
  {
    seq(|rows|, k requires 0 <= k < |rows| => rows[k].bar.low)
  }

  function Highs(rows: seq<Row>): (xs: seq<real>)
    ensures |xs| == |rows| && forall k :: 0 <= k < |rows| ==> xs[k] == rows[k].bar.high
  {
    seq(|rows|, k requires 0 <= k < |rows| => rows[k].bar.high)
  }

  predicate StopTouched(row: Row, levels: Levels)
  {
    levels.stopLoss.Some? && row.bar.low <= levels.stopLoss.value
  }

  predicate TargetTouched(row: Row, levels: Levels)
  {
    levels.takeProfit.Some? && row.bar.high >= levels.takeProfit.value
  }

  /**
   * The outcome as the source decides it: the minimum low over the whole forward
   * window against the stop first, then the maximum high against the target.
   */
  function Classify(forward: seq<Row>, levels: Levels): Outcome
    requires |forward| > 0
  {
    var minPrice, maxPrice := MinOf(Lows(forward)), MaxOf(Highs(forward));
    if levels.stopLoss.Some? && minPrice <= levels.stopLoss.value then StopLossHit
    else if levels.takeProfit.Some? && maxPrice >= levels.takeProfit.value then TakeProfitHit
    else Hold20Days
  }

  /**
   * STOP_LOSS_HIT iff some forward row touches the stop; TAKE_PROFIT_HIT iff none
   * does and some row touches the target; HOLD_20_DAYS otherwise.
   */
  lemma ClassifyMeaning(forward: seq<Row>, levels: Levels)
    requires |forward| > 0
    ensures Classify(forward, levels) == StopLossHit <==> exists k :: 0 <= k < |forward| && StopTouched(forward[k], levels)
    ensures Classify(forward, levels) == TakeProfitHit <==>
      && (forall k :: 0 <= k < |forward| ==> !StopTouched(forward[k], levels))
      && (exists k :: 0 <= k < |forward| && TargetTouched(forward[k], levels))
    ensures Classify(forward, levels) == Hold20Days <==>
      forall k :: 0 <= k < |forward| ==> !StopTouched(forward[k], levels) && !TargetTouched(forward[k], levels)
  {
    var lows, highs := Lows(forward), Highs(forward);
    var minPrice, maxPrice := MinOf(lows), MaxOf(highs);
    MinOfIsLeast(lows);
    MaxOfIsGreatest(highs);
    var i :| 0 <= i < |lows| && lows[i] == minPrice;
    var j :| 0 <= j < |highs| && highs[j] == maxPrice;
    assert forward[i].bar.low == minPrice;
    assert forward[j].bar.high == maxPrice;
  }

  /** `(final - entry) / entry * 100` rounded to 2 dp; not finite for a zero entry price. */
  function ForwardReturnPct(entry: real, final: real): (r: Option<real>)
    ensures r.None? <==> entry == 0.0
  {
    if entry == 0.0 then None
    else Some(Round2((final - entry) / entry * 100.0))
  }

  /**
   * The forward return is within half a hundredth of the exact percentage change and,
   * for a positive entry price, has the sign of the price move.
   */
  lemma ForwardReturnPctMeaning(entry: real, final: real)
    ensures var r := ForwardReturnPct(entry, final);
      && (entry != 0.0 ==> (final - entry) / entry * 100.0 - 0.005 <= r.value <= (final - entry) / entry * 100.0 + 0.005)
      && (entry > 0.0 && final >= entry ==> r.value >= 0.0)
      && (entry > 0.0 && final <= entry ==> r.value <= 0.0)
  {
    if entry > 0.0 {
      var pct := (final - entry) / entry * 100.0;
      var q := (final - entry) / entry;
      assert q * entry == final - entry;
      Round2Exact(0);
      if final >= entry {
        Round2Monotone(0.0, pct);
      } else {
        Round2Monotone(pct, 0.0);
      }
    }
  }

  /** The trade opened on a triggered day `i`; its forward return is taken for every outcome. */
  function TradeAt(run: Run, i: nat): Trade
    requires i + FORWARD_WINDOW < |run.df| && run.lookback <= i
  {
    var log := LogAt(run, i);
    var levels := run.risk(log.price, log.atr14);
    var forward := run.df[i + 1 .. i + 1 + FORWARD_WINDOW];
    Trade(log.date, Round2(log.price), log.score.finalScore, log.score.description,
          levels.stopLoss, levels.takeProfit, Classify(forward, levels),
          ForwardReturnPct(log.price, run.df[i + FORWARD_WINDOW].bar.close))
  }

  // ---------------------------------------------------------------------------
  // The whole loop, as functions of the number of days visited
  // ---------------------------------------------------------------------------

  /** `range(len(df) - FORWARD_WINDOW)`: the number of days the loop visits. */
  function Horizon(df: seq<Row>): (n: nat)
    ensures |df| >= FORWARD_WINDOW ==> n + FORWARD_WINDOW == |df|
    ensures |df| < FORWARD_WINDOW ==> n == 0
  {
    if |df| >= FORWARD_WINDOW then |df| - FORWARD_WINDOW else 0
  }

  /** Indices of the days among the first `n` visited that receive a daily log, in visiting order. */
  function LoggedDays(run: Run, n: nat): (days: seq<nat>)
    requires n <= |run.df|
    ensures forall k :: 0 <= k < |days| ==> days[k] < n && run.lookback <= days[k]
  {
    if n == 0 then []
    else LoggedDays(run, n - 1) + (if Evaluated(run, n - 1) then [n - 1] else [])
  }

  /** Indices of the days among the first `n` visited that open a trade, in visiting order. */
  function TradedDays(run: Run, n: nat): (days: seq<nat>)
    requires n <= Horizon(run.df)
    ensures forall k :: 0 <= k < |days| ==> days[k] < n && run.lookback <= days[k]
  {
    if n == 0 then []
    else TradedDays(run, n - 1) + (if Evaluated(run, n - 1) && Triggered(run, n - 1) then [n - 1] else [])
  }

  /** The daily log entries of the given days, in the given order. */
  function LogsOn(run: Run, days: seq<nat>): seq<DailyLog>
    requires forall k :: 0 <= k < |days| ==> days[k] < |run.df| && run.lookback <= days[k]
  {
    seq(|days|, k requires 0 <= k < |days| => LogAt(run, days[k]))
  }

  /** The trades opened on the given days, in the given order. */
  function TradesOn(run: Run, days: seq<nat>): seq<Trade>
    requires forall k :: 0 <= k < |days| ==> days[k] + FORWARD_WINDOW < |run.df| && run.lookback <= days[k]
  {
    seq(|days|, k requires 0 <= k < |days| => TradeAt(run, days[k]))
  }

  /** The daily log after the first `n` visited days. */
  function Logs(run: Run, n: nat): seq<DailyLog>
    requires n <= |run.df|
  {
    LogsOn(run, LoggedDays(run, n))
  }

  /** The trade list after the first `n` visited days. */
  function Trades(run: Run, n: nat): seq<Trade>
    requires n <= Horizon(run.df)
  {
    TradesOn(run, TradedDays(run, n))
  }

  /** Visiting day `i` appends its log entry iff the day is evaluated. */
  lemma LogsStep(run: Run, i: nat)
    requires i < |run.df|
    ensures Evaluated(run, i) ==> Logs(run, i + 1) == Logs(run, i) + [LogAt(run, i)]
    ensures !Evaluated(run, i) ==> Logs(run, i + 1) == Logs(run, i)
  {
    var days := LoggedDays(run, i);
    if Evaluated(run, i) {
      assert LoggedDays(run, i + 1) == days + [i];
      assert LogsOn(run, days + [i]) == LogsOn(run, days) + [LogAt(run, i)];
    }
  }

  /** Visiting day `i` appends its trade iff the day is evaluated and triggered. */
  lemma TradesStep(run: Run, i: nat)
    requires i < Horizon(run.df)
    ensures Evaluated(run, i) && Triggered(run, i) ==> Trades(run, i + 1) == Trades(run, i) + [TradeAt(run, i)]
    ensures !(Evaluated(run, i) && Triggered(run, i)) ==> Trades(run, i + 1) == Trades(run, i)
  {
    var days := TradedDays(run, i);
    if Evaluated(run, i) && Triggered(run, i) {
      assert TradedDays(run, i + 1) == days + [i];
      assert TradesOn(run, days + [i]) == TradesOn(run, days) + [TradeAt(run, i)];
    }
  }

  /** `run_backtest` from the raw series on: the two early exits, then the loop over every visited day. */
  function Backtest(
    raw: seq<Bar>, enrich: seq<Bar> -> seq<Row>, regime: Option<map<int, RegimeRow>>,
    lookback: int, scorer: Scorer, risk: RiskModel): (seq<Trade>, seq<DailyLog>)
  {
    if |raw| < lookback + FORWARD_WINDOW + WARMUP_ROWS then ([], [])
    else
      var df := enrich(raw);
      if |df| < lookback + FORWARD_WINDOW then ([], [])
      else
        var run := Run(df, regime, lookback, scorer, risk);
        (Trades(run, Horizon(df)), Logs(run, Horizon(df)))
  }

  /**
   * `run_backtest`: the loop at lines 89-164, appending to the two output lists.
   * Reading the CSV files and aligning the regime series happen before it.
   */
  method RunBacktest(
    raw: seq<Bar>, enrich: seq<Bar> -> seq<Row>, regime: Option<map<int, RegimeRow>>,
    lookback: int, scorer: Scorer, risk: RiskModel)
    returns (trades: seq<Trade>, dailyLogs: seq<DailyLog>)
    ensures (trades, dailyLogs) == Backtest(raw, enrich, regime, lookback, scorer, risk)
    ensures |raw| < lookback + FORWARD_WINDOW + WARMUP_ROWS ==> trades == [] && dailyLogs == []
    ensures |enrich(raw)| < lookback + FORWARD_WINDOW ==> trades == [] && dailyLogs == []
    ensures |trades| <= |dailyLogs|
  {
    var minDfLen := lookback + FORWARD_WINDOW + WARMUP_ROWS;
    if |raw| < minDfLen {
      return [], [];
    }
    var df := enrich(raw);
    if |df| < lookback + FORWARD_WINDOW {
      return [], [];
    }
    ghost var run := Run(df, regime, lookback, scorer, risk);
    trades, dailyLogs := [], [];
    for i := 0 to Horizon(df)
      invariant dailyLogs == Logs(run, i)
      invariant trades == Trades(run, i)
    {
      LogsStep(run, i);
      TradesStep(run, i);
      if i < lookback {
        continue;
      }
      var currentDate := df[i].bar.date;
      if regime.Some? && currentDate in regime.value {
        var regimeRow := regime.value[currentDate];
        if regimeRow.sma200.Some? && regimeRow.close.Some? && regimeRow.close.value < regimeRow.sma200.value {
          continue;
        }
      }
      var windowRows := if lookback >= 0 then df[i - lookback .. i] else [];
      var currentPrice := df[i].bar.close;
      var sma50 := df[i].sma50;
      var atr14 := df[i].atr14;
      var scoreResult := scorer(windowRows, currentPrice, sma50, atr14);
      var logEntry := DailyLog(currentDate, currentPrice, atr14, sma50, scoreResult);
      assert Evaluated(run, i) && logEntry == LogAt(run, i);
      dailyLogs := dailyLogs + [logEntry];
      if scoreResult.finalScore >= SCORE_THRESHOLD {
        var levels := risk(currentPrice, atr14);
        var forward := df[i + 1 .. i + 1 + FORWARD_WINDOW];
        var minPriceForward := MinOf(Lows(forward));
        var maxPriceForward := MaxOf(Highs(forward));
        var outcome := Hold20Days;
        if levels.stopLoss.Some? && minPriceForward <= levels.stopLoss.value {
          outcome := StopLossHit;
        } else if levels.takeProfit.Some? && maxPriceForward >= levels.takeProfit.value {
          outcome := TakeProfitHit;
        }
        var finalPrice := df[i + FORWARD_WINDOW].bar.close;
        var forwardReturnPct := ForwardReturnPct(currentPrice, finalPrice);
        assert outcome == Classify(forward, levels);
        var trade := Trade(currentDate, Round2(currentPrice), scoreResult.finalScore, scoreResult.description,
                           levels.stopLoss, levels.takeProfit, outcome, forwardReturnPct);
        assert trade == TradeAt(run, i);
        trades := trades + [trade];
      }
    }
    TradesAtMostLogs(run, Horizon(df));
  }

  // ---------------------------------------------------------------------------
  // Properties of the loop
  // ---------------------------------------------------------------------------

  /** There are never more trading days than logged days. */
  lemma {:induction false} TradesAtMostLogs(run: Run, n: nat)
    requires n <= Horizon(run.df)
    ensures |Trades(run, n)| <= |Logs(run, n)|
  {
    if n > 0 {
      TradesAtMostLogs(run, n - 1);
      assert |TradedDays(run, n)| <= |TradedDays(run, n - 1)| + 1;
    }
  }

  /**
   * A day is logged iff it has a full lookback and is not skipped by the regime
   * filter; the logged days come in ascending order.
   */
  lemma {:induction false} LoggedDaysAreEvaluated(run: Run, n: nat)
    requires n <= |run.df|
    ensures forall k :: 0 <= k < |LoggedDays(run, n)| ==> LoggedDays(run, n)[k] < n && run.lookback <= LoggedDays(run, n)[k]
    ensures forall j :: 0 <= j < n ==> (j in LoggedDays(run, n) <==> Evaluated(run, j))
    ensures forall k, m :: 0 <= k < m < |LoggedDays(run, n)| ==> LoggedDays(run, n)[k] < LoggedDays(run, n)[m]
  {
    if n > 0 {
      LoggedDaysAreEvaluated(run, n - 1);
    }
  }

  /**
   * A day opens a trade iff it is evaluated and its final score reaches the threshold;
   * the trading days come in ascending order, each `FORWARD_WINDOW` rows or more
   * before the end of the series.
   */
  lemma {:induction false} TradedDaysAreTriggered(run: Run, n: nat)
    requires n <= Horizon(run.df)
    ensures forall k :: 0 <= k < |TradedDays(run, n)| ==>
      TradedDays(run, n)[k] < n && TradedDays(run, n)[k] + FORWARD_WINDOW < |run.df| && run.lookback <= TradedDays(run, n)[k]
    ensures forall j :: 0 <= j < n ==> (j in TradedDays(run, n) <==> Evaluated(run, j) && Triggered(run, j))
    ensures forall k, m :: 0 <= k < m < |TradedDays(run, n)| ==> TradedDays(run, n)[k] < TradedDays(run, n)[m]
  {
    if n > 0 {
      TradedDaysAreTriggered(run, n - 1);
    }
  }

  /** Every trade's pattern score reached the threshold. */
  lemma TradesMeetThreshold(run: Run, n: nat)
    requires n <= Horizon(run.df)
    ensures forall t :: t in Trades(run, n) ==> t.patternScore >= SCORE_THRESHOLD
  {
    TradedDaysAreTriggered(run, n);
    forall t | t in Trades(run, n)
      ensures t.patternScore >= SCORE_THRESHOLD
    {
      var k :| 0 <= k < |Trades(run, n)| && Trades(run, n)[k] == t;
      var j := TradedDays(run, n)[k];
      assert j in TradedDays(run, n);
    }
  }

  /** Every trade is accompanied by the daily log entry of its own day, with the same date and score. */
  lemma TradesAreLogged(run: Run, n: nat)
    requires n <= Horizon(run.df)
    ensures forall t :: t in Trades(run, n) ==>
      exists l :: l in Logs(run, n) && l.date == t.entryDate && l.score.finalScore == t.patternScore
  {
    TradedDaysAreTriggered(run, n);
    LoggedDaysAreEvaluated(run, n);
    forall t | t in Trades(run, n)
      ensures exists l :: l in Logs(run, n) && l.date == t.entryDate && l.score.finalScore == t.patternScore
    {
      var k :| 0 <= k < |Trades(run, n)| && Trades(run, n)[k] == t;
      var j := TradedDays(run, n)[k];
      assert j in TradedDays(run, n);
      assert j in LoggedDays(run, n);
      var m :| 0 <= m < |LoggedDays(run, n)| && LoggedDays(run, n)[m] == j;
      assert Logs(run, n)[m] in Logs(run, n);
    }
  }

  ghost predicate DatesIncreasingRows(df: seq<Row>)
  {
    forall i, j :: 0 <= i < j < |df| ==> df[i].bar.date < df[j].bar.date
  }

  /** On a series with strictly increasing dates both output lists are in strictly ascending date order. */
  lemma OutputsInDateOrder(run: Run, n: nat)
    requires n <= Horizon(run.df) && DatesIncreasingRows(run.df)
    ensures forall k, m :: 0 <= k < m < |Logs(run, n)| ==> Logs(run, n)[k].date < Logs(run, n)[m].date
    ensures forall k, m :: 0 <= k < m < |Trades(run, n)| ==> Trades(run, n)[k].entryDate < Trades(run, n)[m].entryDate
  {
    LoggedDaysAreEvaluated(run, n);
    TradedDaysAreTriggered(run, n);
  }

  /** A day is skipped by the regime filter iff the index is below its SMA-200 on that date. */
  lemma RegimeSkipMeaning(regime: map<int, RegimeRow>, date: int)
    ensures RegimeSkips(None, date) == false
    ensures date !in regime ==> !RegimeSkips(Some(regime), date)
    ensures date in regime && regime[date].sma200.Some? && regime[date].close.Some? ==>
      (RegimeSkips(Some(regime), date) <==> regime[date].close.value < regime[date].sma200.value)
    ensures date in regime && (regime[date].sma200.None? || regime[date].close.None?) ==> !RegimeSkips(Some(regime), date)
  {
  }

  /** A day the regime filter skips is neither logged nor traded. */
  lemma RegimeSkippedDayNeverLogged(run: Run, n: nat, j: nat)
    requires n <= Horizon(run.df) && j < n
    requires RegimeSkips(run.regime, run.df[j].bar.date)
    ensures j !in LoggedDays(run, n) && j !in TradedDays(run, n)
  {
    LoggedDaysAreEvaluated(run, n);
    TradedDaysAreTriggered(run, n);
  }

  // ---------------------------------------------------------------------------
  // The outcome rule against a first-touch reading
  // ---------------------------------------------------------------------------

  /**
   * A first-touch reading of the forward window: the earliest row that touches
   * either level decides, the stop winning a row that touches both.
   */
  function FirstTouch(forward: seq<Row>, levels: Levels): (o: Outcome)
    ensures o == Hold20Days <==> forall k :: 0 <= k < |forward| ==>
      !StopTouched(forward[k], levels) && !TargetTouched(forward[k], levels)
    ensures o == StopLossHit ==>
      exists k :: 0 <= k < |forward| && StopTouched(forward[k], levels) &&
        (forall j :: 0 <= j < k ==> !TargetTouched(forward[j], levels))
    ensures o == TakeProfitHit ==>
      exists k :: 0 <= k < |forward| && TargetTouched(forward[k], levels) &&
        (forall j :: 0 <= j <= k ==> !StopTouched(forward[j], levels))
    ensures o == TakeProfitHit ==> !StopTouched(forward[0], levels)
  {
    if |forward| == 0 then Hold20Days
    else if StopTouched(forward[0], levels) then StopLossHit
    else if TargetTouched(forward[0], levels) then TakeProfitHit
    else
      var rest := forward[1..];
      var o := FirstTouch(rest, levels);
      assert forall k :: 1 <= k < |forward| ==> forward[k] == rest[k - 1];
      assert o == StopLossHit ==>
        exists k :: 0 <= k < |forward| && StopTouched(forward[k], levels) &&
          (forall j :: 0 <= j < k ==> !TargetTouched(forward[j], levels)) by {
        if o == StopLossHit {
          var k :| 0 <= k < |rest| && StopTouched(rest[k], levels) && (forall j :: 0 <= j < k ==> !TargetTouched(rest[j], levels));
          assert StopTouched(forward[k + 1], levels);
        }
      }
      assert o == TakeProfitHit ==>
        exists k :: 0 <= k < |forward| && TargetTouched(forward[k], levels) &&
          (forall j :: 0 <= j <= k ==> !StopTouched(forward[j], levels)) by {
        if o == TakeProfitHit {
          var k :| 0 <= k < |rest| && TargetTouched(rest[k], levels) && (forall j :: 0 <= j <= k ==> !StopTouched(rest[j], levels));
          assert TargetTouched(forward[k + 1], levels);
        }
      }
      o
  }

  /**
   * The rule as written agrees with first touch except where a target touch comes
   * first and a stop touch later: then the code reports the stop.
   */
  lemma ClassifyVersusFirstTouch(forward: seq<Row>, levels: Levels)
    requires |forward| > 0
    ensures FirstTouch(forward, levels) == StopLossHit ==> Classify(forward, levels) == StopLossHit
    ensures FirstTouch(forward, levels) == Hold20Days <==> Classify(forward, levels) == Hold20Days
    ensures Classify(forward, levels) == TakeProfitHit ==> FirstTouch(forward, levels) == TakeProfitHit
  {
    ClassifyMeaning(forward, levels);
  }

  function FlatRow(date: int, low: real, high: real): Row
  {
    Row(Bar(date, 100.0, high, low, 100.0, 1000.0), None, None)
  }

  /**
   * A window that reaches the target on its first row and the stop on its last:
   * first touch says take-profit, the code says stop-loss.
   */
  lemma TargetFirstStillStopLoss()
    ensures var forward := [FlatRow(1, 99.0, 121.0)] + seq(18, k => FlatRow(k + 2, 99.0, 101.0)) + [FlatRow(20, 89.0, 101.0)];
      var levels := Levels(Some(90.0), Some(120.0));
      |forward| == FORWARD_WINDOW &&
      FirstTouch(forward, levels) == TakeProfitHit && Classify(forward, levels) == StopLossHit
  {
    var forward := [FlatRow(1, 99.0, 121.0)] + seq(18, k => FlatRow(k + 2, 99.0, 101.0)) + [FlatRow(20, 89.0, 101.0)];
    var levels := Levels(Some(90.0), Some(120.0));
    assert StopTouched(forward[19], levels);
    assert TargetTouched(forward[0], levels) && !StopTouched(forward[0], levels);
    ClassifyMeaning(forward, levels);
  }
}
