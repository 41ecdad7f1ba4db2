/** Python's `int()`, `round()` and `max(lo, min(x, hi))` as the dashboard uses them, with two facts about real arithmetic the proofs share. */
module Numeric {

  /** Python's `int()` on a float: truncation toward zero. */
  function Trunc(x: real): (r: int)
    ensures 0.0 <= x ==> 0 <= r && r as real <= x < r as real + 1.0
    ensures x < 0.0 ==> r <= 0 && r as real - 1.0 < x <= r as real
  {
    if x >= 0.0 then x.Floor else -((-x).Floor)
  }

  /** Python's `round` on an exact value: the nearest integer, a tie going to the even neighbour. */
  function RoundHalfEven(x: real): (r: int)
    ensures x - 0.5 <= r as real <= x + 0.5
    ensures (r as real == x - 0.5 || r as real == x + 0.5) ==> r % 2 == 0
  {
    var f := x.Floor;
    var frac := x - f as real;
    if frac < 0.5 then f
    else if frac > 0.5 then f + 1
    else if f % 2 == 0 then f
    else f + 1
  }

  /** An integer strictly closer than one half to `x` is what `round` returns. */
  lemma RoundHalfEvenNearest(x: real, n: int)
    requires x - 0.5 < n as real < x + 0.5
    ensures RoundHalfEven(x) == n
  {
  }

  /** Python's `max(lo, min(x, hi))`. */
  function Clamp(lo: int, x: int, hi: int): (r: int)
    requires lo <= hi
    ensures lo <= r <= hi
    ensures lo <= x <= hi ==> r == x
    ensures x < lo ==> r == lo
    ensures hi < x ==> r == hi
  {
    if x < lo then lo else if x > hi then hi else x
  }

  /** Scaling by a factor in [lo, hi] keeps a value between its lo- and hi-multiples. */
  lemma ScaleBetween(b: real, f: real, lo: real, hi: real)
    requires lo <= f <= hi
    ensures b >= 0.0 ==> lo * b <= b * f <= hi * b
    ensures b < 0.0 ==> hi * b <= b * f <= lo * b
  {
    assert b * f - lo * b == b * (f - lo);
    assert hi * b - b * f == b * (hi - f);
  }

  /** Comparing a mean with a bound is comparing the total with the bound times the count. */
  lemma MeanCompare(total: real, n: real, bound: real)
    requires n > 0.0
    ensures total / n > bound <==> total > bound * n
    ensures total / n < bound <==> total < bound * n
  {
    var m := total / n;
    assert total == m * n;
    if m > bound {
      assert m * n - bound * n == (m - bound) * n;
    }
    if m < bound {
      assert bound * n - m * n == (bound - m) * n;
    }
    if m == bound {
      assert m * n == bound * n;
    }
  }
}
