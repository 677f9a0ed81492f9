/**
 * Indicator and window preparation (src/data_preprocessor.py): true range and a
 * simple-mean ATR, min/max normalisation of a window with flat-data sentinels,
 * and the date-indexed window slice that fails with `None`.
 */
module DataPreprocessor {
  import opened Wrappers
  import opened Bars

  /** `preprocess_data` always asks for a 14-period ATR. */
  const ATR_PERIOD: nat := 14

  /** Sentinels for a window whose column is flat (max not above min). */
  const FLAT_CLOSE: real := 0.5
  const FLAT_VOLUME: real := 0.0

  function Abs(x: real): real
  {
    if x < 0.0 then -x else x
  }

  function Max3(a: real, b: real, c: real): (m: real)
    ensures m >= a && m >= b && m >= c
    ensures m == a || m == b || m == c
  {
    if a >= b && a >= c then a else if b >= c then b else c
  }

  /**
   * True range of row `t`: the largest of high-low and the distances of high and low
   * from the previous close. On the first row the previous close is missing and the
   * row-wise max skips those terms, leaving high-low.
   */
  function TrueRange(bars: seq<Bar>, t: nat): (r: real)
    requires t < |bars|
    ensures r >= bars[t].high - bars[t].low
    ensures t == 0 ==> r == bars[t].high - bars[t].low
    ensures t > 0 ==>
      && r >= Abs(bars[t].high - bars[t - 1].close)
      && r >= Abs(bars[t].low - bars[t - 1].close)
      && (r == bars[t].high - bars[t].low || r == Abs(bars[t].high - bars[t - 1].close)
          || r == Abs(bars[t].low - bars[t - 1].close))
  {
    var highLow := bars[t].high - bars[t].low;
    if t == 0 then highLow
    else Max3(highLow, Abs(bars[t].high - bars[t - 1].close), Abs(bars[t].low - bars[t - 1].close))
  }

  /** Sum of the true ranges of rows `lo .. hi-1`. */
  function SumTrueRange(bars: seq<Bar>, lo: nat, hi: nat): real
    requires lo <= hi <= |bars|
    decreases hi - lo
  {
    if lo == hi then 0.0 else TrueRange(bars, lo) + SumTrueRange(bars, lo + 1, hi)
  }

  /** Sum of high-low over rows `lo .. hi-1`. */
  function SumRange(bars: seq<Bar>, lo: nat, hi: nat): real
    requires lo <= hi <= |bars|
    decreases hi - lo
  {
    if lo == hi then 0.0 else (bars[lo].high - bars[lo].low) + SumRange(bars, lo + 1, hi)
  }

  /**
   * `_calculate_atr` at row `t`: the arithmetic mean of the true range over the
   * `period` rows ending at `t`; undefined (NaN) while fewer than `period` rows exist.
   */
  function Atr(bars: seq<Bar>, period: nat, t: nat): (r: Option<real>)
    requires period >= 1 && t < |bars|
    ensures r.None? <==> t + 1 < period
  {
    if t + 1 < period then None
    else Some(SumTrueRange(bars, t + 1 - period, t + 1) / period as real)
  }

  lemma {:induction false} SumTrueRangeAtLeastSumRange(bars: seq<Bar>, lo: nat, hi: nat)
    requires lo <= hi <= |bars|
    ensures SumTrueRange(bars, lo, hi) >= SumRange(bars, lo, hi)
    decreases hi - lo
  {
    if lo < hi {
      SumTrueRangeAtLeastSumRange(bars, lo + 1, hi);
    }
  }

  lemma {:induction false} SumRangeNonNegative(bars: seq<Bar>, lo: nat, hi: nat)
    requires lo <= hi <= |bars|
    requires forall k :: lo <= k < hi ==> bars[k].low <= bars[k].high
    ensures SumRange(bars, lo, hi) >= 0.0
    decreases hi - lo
  {
    if lo < hi {
      SumRangeNonNegative(bars, lo + 1, hi);
    }
  }

  /**
   * The ATR is at least the mean high-low range of its rows, so it is never negative
   * when every row's low is at most its high.
   */
  lemma AtrAtLeastMeanRange(bars: seq<Bar>, period: nat, t: nat)
    requires period >= 1 && t < |bars| && t + 1 >= period
    ensures Atr(bars, period, t).value >= SumRange(bars, t + 1 - period, t + 1) / period as real
    ensures (forall k :: t + 1 - period <= k <= t ==> bars[k].low <= bars[k].high) ==> Atr(bars, period, t).value >= 0.0
  {
    var lo := t + 1 - period;
    SumTrueRangeAtLeastSumRange(bars, lo, t + 1);
    var p := period as real;
    DivideMonotone(SumTrueRange(bars, lo, t + 1), SumRange(bars, lo, t + 1), p);
    if forall k :: lo <= k <= t ==> bars[k].low <= bars[k].high {
      SumRangeNonNegative(bars, lo, t + 1);
    }
  }

  /** Dividing by a positive number preserves order. */
  lemma DivideMonotone(a: real, b: real, p: real)
    requires p > 0.0 && a >= b
    ensures a / p >= b / p
  {
    assert (a / p) * p == a && (b / p) * p == b;
  }

  // ---------------------------------------------------------------------------
  // Normalisation of a window (`_normalize_window`)
  // ---------------------------------------------------------------------------

  /** The column has a spread: pandas' min/max of an empty column are NaN, which never compare greater. */
  predicate HasSpread(xs: seq<real>)
  {
    |xs| > 0 && MaxOf(xs) > MinOf(xs)
  }

  /** `(x - lo) / (hi - lo)` */
  function Rescale(x: real, lo: real, hi: real): real
    requires lo < hi
  {
    (x - lo) / (hi - lo)
  }

  /** Min/max rescaling of a column, or the flat sentinel in every row when there is no spread. */
  function Normalized(xs: seq<real>, flat: real): (ys: seq<real>)
    ensures |ys| == |xs|
    ensures !HasSpread(xs) ==> forall k :: 0 <= k < |ys| ==> ys[k] == flat
  {
    if HasSpread(xs) then
      var lo, hi := MinOf(xs), MaxOf(xs);
      seq(|xs|, k requires 0 <= k < |xs| => Rescale(xs[k], lo, hi))
    else
      seq(|xs|, k => flat)
  }

  /** With a spread, every normalised value lies in [0, 1]; the minimum maps to 0 and the maximum to 1. */
  lemma NormalizedInUnitInterval(xs: seq<real>, flat: real, k: nat)
    requires HasSpread(xs) && k < |xs|
    ensures 0.0 <= Normalized(xs, flat)[k] <= 1.0
    ensures xs[k] == MinOf(xs) ==> Normalized(xs, flat)[k] == 0.0
    ensures xs[k] == MaxOf(xs) ==> Normalized(xs, flat)[k] == 1.0
  {
    var lo, hi := MinOf(xs), MaxOf(xs);
    MinOfIsLeast(xs);
    MaxOfIsGreatest(xs);
    assert Normalized(xs, flat)[k] == Rescale(xs[k], lo, hi);
    RescaledInUnit(xs[k], lo, hi);
  }

  lemma RescaledInUnit(x: real, lo: real, hi: real)
    requires lo <= x <= hi && lo < hi
    ensures 0.0 <= Rescale(x, lo, hi) <= 1.0
    ensures x == lo ==> Rescale(x, lo, hi) == 0.0
    ensures x == hi ==> Rescale(x, lo, hi) == 1.0
  {
    QuotientInUnit(x - lo, hi - lo);
  }

  lemma QuotientInUnit(n: real, d: real)
    requires 0.0 <= n <= d && d > 0.0
    ensures 0.0 <= n / d <= 1.0
  {
  }

  /** The pandas frame `_normalize_window` receives and writes its two new columns into. */
  class WindowFrame {
    var rows: seq<Bar>
    var closeNormalized: Option<seq<real>>
    var volumeNormalized: Option<seq<real>>

    constructor (rows: seq<Bar>)
      ensures this.rows == rows && closeNormalized == None && volumeNormalized == None
    {
      this.rows := rows;
      closeNormalized := None;
      volumeNormalized := None;
    }
  }

  /**
   * `_normalize_window`: writes `close_normalized` (flat: 0.5) and `volume_normalized`
   * (flat: 0.0) into the frame it is given and leaves its rows alone.
   */
  method NormalizeWindow(w: WindowFrame)
    modifies w
    ensures w.rows == old(w.rows)
    ensures w.closeNormalized == Some(Normalized(Closes(w.rows), FLAT_CLOSE))
    ensures w.volumeNormalized == Some(Normalized(Volumes(w.rows), FLAT_VOLUME))
  {
    var closes := Closes(w.rows);
    if HasSpread(closes) {
      var closeMin, closeMax := MinOf(closes), MaxOf(closes);
      w.closeNormalized := Some(seq(|closes|, k requires 0 <= k < |closes| => Rescale(closes[k], closeMin, closeMax)));
    } else {
      w.closeNormalized := Some(seq(|closes|, k => FLAT_CLOSE));
    }
    var volumes := Volumes(w.rows);
    if HasSpread(volumes) {
      var volumeMin, volumeMax := MinOf(volumes), MaxOf(volumes);
      w.volumeNormalized := Some(seq(|volumes|, k requires 0 <= k < |volumes| => Rescale(volumes[k], volumeMin, volumeMax)));
    } else {
      w.volumeNormalized := Some(seq(|volumes|, k => FLAT_VOLUME));
    }
  }

  // ---------------------------------------------------------------------------
  // Date lookup and the prepared window (`preprocess_data`)
  // ---------------------------------------------------------------------------

  /** What `index.get_loc(date)` gives: a KeyError, a single int, or a slice/mask for a duplicated date. */
  datatype DateLookup = Missing | Unique(loc: nat) | Duplicated

  function Locate(bars: seq<Bar>, date: int): (r: DateLookup)
    ensures r.Missing? <==> forall k :: 0 <= k < |bars| ==> bars[k].date != date
    ensures r.Unique? ==>
      && r.loc < |bars| && bars[r.loc].date == date
      && forall k :: 0 <= k < |bars| && k != r.loc ==> bars[k].date != date
    ensures r.Duplicated? ==> exists j, k :: 0 <= j < k < |bars| && bars[j].date == date && bars[k].date == date
  {
    if |bars| == 0 then Missing
    else
      var rest := Locate(bars[1..], date);
      assert forall k :: 1 <= k < |bars| ==> bars[k] == bars[1..][k - 1];
      if bars[0].date == date then
        if rest.Missing? then Unique(0)
        else
          var j :| 0 <= j < |bars[1..]| && bars[1..][j].date == date;
          assert bars[j + 1].date == date;
          Duplicated
      else
        match rest
        case Missing => Missing
        case Unique(l) => Unique(l + 1)
        case Duplicated =>
          var j, k :| 0 <= j < k < |bars[1..]| && bars[1..][j].date == date && bars[1..][k].date == date;
          assert bars[j + 1].date == date && bars[k + 1].date == date;
          Duplicated
  }

  /** The rows `loc-window+1 .. loc` that end at and include the target row. */
  function WindowRows(bars: seq<Bar>, loc: nat, window: int): seq<Bar>
    requires loc < |bars| && window <= loc
  {
    if window >= 1 then bars[loc - window + 1 .. loc + 1] else []
  }

  /** The tuple `preprocess_data` returns, with the normalised frame kept as its columns. */
  datatype Prepared = Prepared(
    window: seq<Bar>, closeNormalized: seq<real>, volumeNormalized: seq<real>, price: real, atr: real)

  /** `preprocess_data` as a value: `None` for a missing or duplicated date, too little history, or an undefined ATR. */
  function Preprocess(bars: seq<Bar>, date: int, window: int): Option<Prepared>
  {
    match Locate(bars, date)
    case Missing => None
    case Duplicated => None
    case Unique(loc) => PrepareAt(bars, loc, window)
  }

  /** The part of `preprocess_data` after the date has been found at row `loc`. */
  function PrepareAt(bars: seq<Bar>, loc: nat, window: int): (r: Option<Prepared>)
    requires loc < |bars|
    ensures r.Some? ==> loc >= window && loc + 1 >= ATR_PERIOD
    ensures r.Some? && window >= 1 ==>
      && |r.value.window| == window
      && r.value.window[window - 1] == bars[loc]
      && forall k :: 0 <= k < window ==> r.value.window[k] == bars[loc - window + 1 + k]
  {
    if loc < window then None
    else
      var rows := WindowRows(bars, loc, window);
      var atr := Atr(bars, ATR_PERIOD, loc);
      if atr.None? then None
      else Some(Prepared(rows, Normalized(Closes(rows), FLAT_CLOSE), Normalized(Volumes(rows), FLAT_VOLUME),
                         bars[loc].close, atr.value))
  }

  /** The result of the method below: the new frame and the price and ATR at the date. */
  datatype Preprocessed = Preprocessed(frame: WindowFrame, price: real, atr: real)

  /**
   * `preprocess_data`: looks the date up, slices a fresh copy of the window, normalises
   * the copy and reads the price and ATR at the date. The input series is a value and
   * is therefore never modified.
   */
  method PreprocessData(bars: seq<Bar>, date: int, window: int) returns (r: Option<Preprocessed>)
    ensures r.None? <==> Preprocess(bars, date, window).None?
    ensures r.Some? ==>
      var p := Preprocess(bars, date, window).value;
      && fresh(r.value.frame)
      && r.value.frame.rows == p.window
      && r.value.frame.closeNormalized == Some(p.closeNormalized)
      && r.value.frame.volumeNormalized == Some(p.volumeNormalized)
      && r.value.price == p.price && r.value.atr == p.atr
  {
    var lookup := Locate(bars, date);
    if lookup.Missing? || lookup.Duplicated? {
      return None;
    }
    var loc := lookup.loc;
    if loc < window {
      return None;
    }
    var frame := new WindowFrame(WindowRows(bars, loc, window));
    NormalizeWindow(frame);
    var price := bars[loc].close;
    var atr := Atr(bars, ATR_PERIOD, loc);
    if atr.None? {
      return None;
    }
    return Some(Preprocessed(frame, price, atr.value));
  }

  /**
   * `preprocess_data` succeeds exactly for a date held by one row, with at least `window`
   * rows before it and a defined 14-period ATR there.
   */
  lemma PreprocessSucceedsIff(bars: seq<Bar>, date: int, window: int)
    ensures Preprocess(bars, date, window).Some? <==>
      exists loc :: 0 <= loc < |bars| && bars[loc].date == date
        && (forall k :: 0 <= k < |bars| && k != loc ==> bars[k].date != date)
        && loc >= window && loc + 1 >= ATR_PERIOD
  {
    var lookup := Locate(bars, date);
    if lookup.Unique? {
      assert bars[lookup.loc].date == date;
    }
    if exists loc :: 0 <= loc < |bars| && bars[loc].date == date
        && (forall k :: 0 <= k < |bars| && k != loc ==> bars[k].date != date)
        && loc >= window && loc + 1 >= ATR_PERIOD {
      var loc :| 0 <= loc < |bars| && bars[loc].date == date
        && (forall k :: 0 <= k < |bars| && k != loc ==> bars[k].date != date)
        && loc >= window && loc + 1 >= ATR_PERIOD;
      assert !lookup.Missing?;
      assert lookup.Unique?;
      assert lookup.loc == loc;
    }
  }

  /**
   * On success the window is exactly the `window` rows ending at and including the
   * target date.
   */
  lemma PreprocessWindowEndsAtDate(bars: seq<Bar>, date: int, window: int)
    requires window >= 1
    requires Preprocess(bars, date, window).Some?
    ensures Locate(bars, date).Unique?
    ensures |Preprocess(bars, date, window).value.window| == window
    ensures Preprocess(bars, date, window).value.window[window - 1].date == date
    ensures var rows, loc := Preprocess(bars, date, window).value.window, Locate(bars, date).loc;
      forall k :: 0 <= k < window ==> rows[k] == bars[loc - window + 1 + k]
  {
    assert Preprocess(bars, date, window) == PrepareAt(bars, Locate(bars, date).loc, window);
  }

  /** On success the price and the ATR are the close and the 14-period ATR of the target row. */
  lemma PreprocessPriceAndAtrAtDate(bars: seq<Bar>, date: int, window: int)
    requires Preprocess(bars, date, window).Some?
    ensures Locate(bars, date).Unique?
    ensures Preprocess(bars, date, window).value.price == bars[Locate(bars, date).loc].close
    ensures Atr(bars, ATR_PERIOD, Locate(bars, date).loc) == Some(Preprocess(bars, date, window).value.atr)
  {
  }
}
