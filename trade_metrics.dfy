/**
 * What the two `analyze_results` reducers (src/analysis/results.py and
 * src/analyze_results.py) share: a results table, the counts and sums they
 * take over a return column, and the metrics record they return.
 */
module TradeMetrics {
  import opened Rounding

  /** A results table: a row count and its numeric columns by name. */
  datatype Table = Table(rowCount: nat, columns: map<string, seq<real>>)
  {
    /** Every column has one value per row, as in a DataFrame. */
    predicate Rectangular()
    {
      forall name :: name in columns ==> |columns[name]| == rowCount
    }

    /** `DataFrame.empty`: no rows or no columns. */
    predicate IsEmpty()
    {
      rowCount == 0 || columns == map[]
    }
  }

  /** A profit factor: a finite value or `float("inf")`. */
  datatype Ratio = Finite(value: real) | Infinite

  datatype Metrics = Metrics(totalTrades: nat, winRate: real, profitFactor: Ratio)

  /** What both reducers return for a table they cannot use. */
  const NoMetrics: Metrics := Metrics(0, 0.0, Finite(0.0))

  /** The number of winning trades: returns strictly above 0. */
  function CountPositive(xs: seq<real>): (n: nat)
    ensures n <= |xs|
    ensures n == 0 <==> forall k :: 0 <= k < |xs| ==> xs[k] <= 0.0
    ensures n == |xs| <==> forall k :: 0 <= k < |xs| ==> xs[k] > 0.0
  {
    if |xs| == 0 then 0
    else
      var rest := CountPositive(xs[1..]);
      assert forall k :: 1 <= k < |xs| ==> xs[k] == xs[1..][k - 1];
      (if xs[0] > 0.0 then 1 else 0) + rest
  }

  /** Gross profit: the sum of the winning returns. */
  function SumPositive(xs: seq<real>): (s: real)
    ensures s >= 0.0
    ensures s > 0.0 <==> exists k :: 0 <= k < |xs| && xs[k] > 0.0
  {
    if |xs| == 0 then 0.0
    else
      var rest := SumPositive(xs[1..]);
      assert forall k :: 1 <= k < |xs| ==> xs[k] == xs[1..][k - 1];
      assert (exists k :: 1 <= k < |xs| && xs[k] > 0.0) ==> exists k :: 0 <= k < |xs[1..]| && xs[1..][k] > 0.0;
      (if xs[0] > 0.0 then xs[0] else 0.0) + rest
  }

  /** The sum of the losing returns (strictly below 0). */
  function SumNegative(xs: seq<real>): (s: real)
    ensures s <= 0.0
    ensures s < 0.0 <==> exists k :: 0 <= k < |xs| && xs[k] < 0.0
  {
    if |xs| == 0 then 0.0
    else
      var rest := SumNegative(xs[1..]);
      assert forall k :: 1 <= k < |xs| ==> xs[k] == xs[1..][k - 1];
      assert (exists k :: 1 <= k < |xs| && xs[k] < 0.0) ==> exists k :: 0 <= k < |xs[1..]| && xs[1..][k] < 0.0;
      (if xs[0] < 0.0 then xs[0] else 0.0) + rest
  }

  /** Gross loss: `abs` of the sum of the losing returns; positive iff some trade lost. */
  function GrossLoss(xs: seq<real>): (g: real)
    ensures g >= 0.0
    ensures g > 0.0 <==> exists k :: 0 <= k < |xs| && xs[k] < 0.0
  {
    -SumNegative(xs)
  }

  /**
   * `round(len(wins) / total * 100, 2)`: the share of winning trades in percent;
   * 0 when no trade won and 100 when every trade did.
   */
  function WinRate(xs: seq<real>): (r: real)
    requires |xs| > 0
    ensures 0.0 <= r <= 100.0
    ensures (forall k :: 0 <= k < |xs| ==> xs[k] <= 0.0) ==> r == 0.0
    ensures (forall k :: 0 <= k < |xs| ==> xs[k] > 0.0) ==> r == 100.0
  {
    var pct := CountPositive(xs) as real / |xs| as real * 100.0;
    PercentInRange(CountPositive(xs), |xs|);
    Round2Exact(0);
    Round2Exact(10000);
    Round2Monotone(0.0, pct);
    Round2Monotone(pct, 100.0);
    Round2(pct)
  }

  lemma PercentInRange(n: nat, total: nat)
    requires 0 < total && n <= total
    ensures 0.0 <= n as real / total as real * 100.0 <= 100.0
    ensures n == 0 ==> n as real / total as real * 100.0 == 0.0
    ensures n == total ==> n as real / total as real * 100.0 == 100.0
  {
    var q := n as real / total as real;
    assert q * total as real == n as real;
    assert q <= 1.0;
  }

  /** `gross_profit / gross_loss` rounded to 2 dp, for a table with at least one loss. */
  function LossRatio(xs: seq<real>): (pf: Ratio)
    requires GrossLoss(xs) > 0.0
    ensures pf.Finite? && pf.value >= 0.0
    ensures pf.value == Round2(SumPositive(xs) / GrossLoss(xs))
    ensures SumPositive(xs) == 0.0 ==> pf.value == 0.0
  {
    var q := SumPositive(xs) / GrossLoss(xs);
    Round2Exact(0);
    Round2Monotone(0.0, q);
    Finite(Round2(q))
  }
}
