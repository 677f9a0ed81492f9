/**
 * Python's `round(x, 2)`, taken on exact reals: the nearest multiple of 0.01,
 * with an exact tie going to the even multiple (banker's rounding).
 */
module Rounding {

  /** The integer number of hundredths that `round(x, 2)` picks. */
  function Cents(x: real): (n: int)
    ensures (n as real) - 0.5 <= x * 100.0 <= (n as real) + 0.5
  {
    var scaled := x * 100.0;
    var c := scaled.Floor;
    var frac := scaled - c as real;
    if frac < 0.5 then c
    else if frac > 0.5 then c + 1
    else if Even(c) then c
    else c + 1
  }

  /** Parity, counted down in steps of two; `EvenIsParity` ties it to `c % 2 == 0`. */
  predicate Even(c: int)
    decreases if c < 0 then -c else c
  {
    if c == 0 then true
    else if c == 1 || c == -1 then false
    else if c > 0 then Even(c - 2)
    else Even(c + 2)
  }

  lemma {:induction false} EvenIsParity(c: int)
    ensures Even(c) <==> c % 2 == 0
    decreases if c < 0 then -c else c
  {
    if c > 1 {
      EvenIsParity(c - 2);
    } else if c < -1 {
      EvenIsParity(c + 2);
    }
  }

  function Round2(x: real): (r: real)
    ensures x - 0.005 <= r <= x + 0.005
  {
    Cents(x) as real / 100.0
  }

  /** Rounding never reverses the order of two values. */
  lemma Round2Monotone(x: real, y: real)
    requires x <= y
    ensures Round2(x) <= Round2(y)
  {
    CentsMonotone(x, y);
  }

  lemma CentsMonotone(x: real, y: real)
    requires x <= y
    ensures Cents(x) <= Cents(y)
  {
    var cx, cy := (x * 100.0).Floor, (y * 100.0).Floor;
    assert x * 100.0 <= y * 100.0;
    assert cx <= cy;
    if cx == cy {
      var fx, fy := x * 100.0 - cx as real, y * 100.0 - cy as real;
      assert fx <= fy;
    }
  }

  /** A value that already has at most two decimals is left as it is. */
  lemma Round2Exact(n: int)
    ensures Round2(n as real / 100.0) == n as real / 100.0
  {
    var x := n as real / 100.0;
    assert x * 100.0 == n as real;
    assert (x * 100.0).Floor == n;
  }
}
