/**
 * The integer arithmetic of the pages. `Math.round(a / b)` on exact non-negative ratios is the
 * nearest integer, with halves rounded up; the fairness score, the boom rate and the league
 * average all round this way. `Math.min` and `Math.max` on naturals, as the fairness score and
 * the top-n slices use them.
 */
module Rounding {

  function Min(a: nat, b: nat): nat
  {
    if a < b then a else b
  }

  function Max(a: nat, b: nat): nat
  {
    if a < b then b else a
  }

  function RoundDiv(a: nat, b: nat): (r: nat)
    requires b > 0
    ensures (2 * r - 1) * b <= 2 * a < (2 * r + 1) * b
  {
    var q := (2 * a + b) / (2 * b);
    assert 2 * a + b == q * (2 * b) + (2 * a + b) % (2 * b);
    q
  }

  lemma MulMonotone(x: int, y: int, b: nat)
    requires x <= y
    ensures x * b <= y * b
  {
    assert y * b == x * b + (y - x) * b;
  }

  /** The rounded ratio is below k exactly when 2a < (2k - 1) b. */
  lemma RoundDivBelow(a: nat, b: nat, k: nat)
    requires b > 0
    ensures RoundDiv(a, b) < k <==> 2 * a < (2 * k - 1) * b
  {
    var r := RoundDiv(a, b);
    if r < k {
      MulMonotone(2 * r + 1, 2 * k - 1, b);
    } else {
      MulMonotone(2 * k - 1, 2 * r - 1, b);
    }
  }

  /** A ratio of at most k rounds to at most k. */
  lemma RoundDivAtMost(a: nat, b: nat, k: nat)
    requires b > 0 && a <= k * b
    ensures RoundDiv(a, b) <= k
  {
    RoundDivBelow(a, b, k + 1);
  }

  /** A ratio of at least k rounds to at least k. */
  lemma RoundDivAtLeast(a: nat, b: nat, k: nat)
    requires b > 0 && a >= k * b
    ensures RoundDiv(a, b) >= k
  {
    RoundDivBelow(a, b, k);
  }
}
