/** The integer arithmetic the dashboards rely on: `Math.ceil` and `Math.round`
    of a quotient of integers, and the rounded percentage used by every rate.

    The defining inequalities are stated by lemmas rather than by the functions'
    own postconditions, so that the nonlinear facts are only in scope where asked for. */
module Numeric {

  /** `Math.ceil(n / d)` for a positive divisor (Dafny's `/` floors for positive divisors). */
  function CeilDiv(n: int, d: int): int
    requires d > 0
  {
    -((-n) / d)
  }

  /** The ceiling is the least multiple count that reaches `n`. */
  lemma CeilDivSpec(n: int, d: int)
    requires d > 0
    ensures (CeilDiv(n, d) - 1) * d < n <= CeilDiv(n, d) * d
  {
  }

  lemma MulMonotone(x: int, y: int, c: int)
    requires x <= y && c >= 0
    ensures x * c <= y * c
  {
  }

  /** An exact quotient needs no rounding. */
  lemma CeilDivExact(k: int, d: int)
    requires d > 0
    ensures CeilDiv(k * d, d) == k
  {
    var r := CeilDiv(k * d, d);
    CeilDivSpec(k * d, d);
    if r < k {
      MulMonotone(r, k - 1, d);
    } else if r > k {
      MulMonotone(k, r - 1, d);
    }
  }

  /** `Math.round(p / q)` for a positive `q`. */
  function RoundDiv(p: int, q: int): int
    requires q > 0
  {
    (2 * p + q) / (2 * q)
  }

  /** `RoundDiv` is the nearest integer to `p / q`, halves rounding up (as `Math.round` does). */
  lemma RoundDivSpec(p: int, q: int)
    requires q > 0
    ensures 2 * q * RoundDiv(p, q) <= 2 * p + q < 2 * q * (RoundDiv(p, q) + 1)
  {
  }

  /** `Math.round((p / q) * 100)`: the percentage `p` is of `q`, rounded. */
  function RoundPercent(p: int, q: int): int
    requires q > 0
  {
    RoundDiv(100 * p, q)
  }

  /** A share of a whole rounds to a percentage between 0 and 100. */
  lemma RoundPercentBounds(p: int, q: int)
    requires 0 <= p <= q && q > 0
    ensures 0 <= RoundPercent(p, q) <= 100
    ensures p == 0 ==> RoundPercent(p, q) == 0
    ensures p == q ==> RoundPercent(p, q) == 100
  {
    var r := RoundPercent(p, q);
    RoundDivSpec(100 * p, q);
    if r < 0 {
      MulMonotone(r + 1, 0, 2 * q);
    }
    if r > 100 {
      MulMonotone(101, r, 2 * q);
      MulMonotone(p, q, 200);
    }
    if p == 0 && r != 0 {
      MulMonotone(1, r, 2 * q);
    }
    if p == q && r != 100 {
      if r < 100 {
        MulMonotone(r + 1, 100, 2 * q);
      }
    }
  }
}
