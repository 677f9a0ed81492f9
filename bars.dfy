/** One daily OHLCV row of a ticker; the date is a day number. */
module Bars {

  datatype Bar = Bar(date: int, open: real, high: real, low: real, close: real, volume: real)

  function Closes(bars: seq<Bar>): (cs: seq<real>)
    ensures |cs| == |bars|
    ensures forall k :: 0 <= k < |bars| ==> cs[k] == bars[k].close
  {
    seq(|bars|, k requires 0 <= k < |bars| => bars[k].close)
  }

  function Volumes(bars: seq<Bar>): (vs: seq<real>)
    ensures |vs| == |bars|
    ensures forall k :: 0 <= k < |bars| ==> vs[k] == bars[k].volume
  {
    seq(|bars|, k requires 0 <= k < |bars| => bars[k].volume)
  }

  /** The smallest value of a non-empty column (pandas `min`); see `MinOfIsLeast`. */
  function MinOf(xs: seq<real>): real
    requires |xs| > 0
  {
    if |xs| == 1 then xs[0]
    else
      var rest := MinOf(xs[1..]);
      if xs[0] <= rest then xs[0] else rest
  }

  /** The largest value of a non-empty column (pandas `max`); see `MaxOfIsGreatest`. */
  function MaxOf(xs: seq<real>): real
    requires |xs| > 0
  {
    if |xs| == 1 then xs[0]
    else
      var rest := MaxOf(xs[1..]);
      if xs[0] >= rest then xs[0] else rest
  }

  /** The minimum is a value of the column and no value lies below it. */
  lemma {:induction false} MinOfIsLeast(xs: seq<real>)
    requires |xs| > 0
    ensures forall k :: 0 <= k < |xs| ==> MinOf(xs) <= xs[k]
    ensures exists k :: 0 <= k < |xs| && xs[k] == MinOf(xs)
  {
    if |xs| == 1 {
      assert xs[0] == MinOf(xs);
    } else {
      var tail := xs[1..];
      MinOfIsLeast(tail);
      assert forall k :: 1 <= k < |xs| ==> xs[k] == tail[k - 1];
      var j :| 0 <= j < |tail| && tail[j] == MinOf(tail);
      if xs[0] <= MinOf(tail) {
        assert xs[0] == MinOf(xs);
      } else {
        assert xs[j + 1] == MinOf(xs);
      }
    }
  }

  /** The maximum is a value of the column and no value lies above it. */
  lemma {:induction false} MaxOfIsGreatest(xs: seq<real>)
    requires |xs| > 0
    ensures forall k :: 0 <= k < |xs| ==> xs[k] <= MaxOf(xs)
    ensures exists k :: 0 <= k < |xs| && xs[k] == MaxOf(xs)
  {
    if |xs| == 1 {
      assert xs[0] == MaxOf(xs);
    } else {
      var tail := xs[1..];
      MaxOfIsGreatest(tail);
      assert forall k :: 1 <= k < |xs| ==> xs[k] == tail[k - 1];
      var j :| 0 <= j < |tail| && tail[j] == MaxOf(tail);
      if xs[0] >= MaxOf(tail) {
        assert xs[0] == MaxOf(xs);
      } else {
        assert xs[j + 1] == MaxOf(xs);
      }
    }
  }
}
