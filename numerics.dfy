/**
 * Python's numeric conversions on exact reals: `int()` on a float truncates
 * toward zero, `round()` rounds half to even, and `np.ceil` of an integer
 * ratio is an exact ceiling.
 */
module Numerics {

  /** Python `int(x)` for a float `x`: truncation toward zero. */
  function Trunc(x: real): (r: int)
    ensures x >= 0.0 ==> r >= 0 && r as real <= x < r as real + 1.0
    ensures x < 0.0 ==> r <= 0 && r as real - 1.0 < x <= r as real
  {
    if x >= 0.0 then x.Floor else -((-x).Floor)
  }

  /** Ceiling of `a / b` for a positive divisor, as `np.ceil(a / b)` computes it. */
  function CeilDiv(a: int, b: int): (r: int)
    requires b > 0
    ensures (r - 1) * b < a <= r * b
  {
    -((-a) / b)
  }

  /** Python 3 `round(x)`: nearest integer, ties to the even neighbour. */
  function RoundHalfEven(x: real): (r: int)
    ensures -0.5 <= r as real - x <= 0.5
    ensures (r as real - x == 0.5 || x - r as real == 0.5) ==> r % 2 == 0
  {
    var f := x.Floor;
    var frac := x - f as real;
    if frac < 0.5 then f
    else if frac > 0.5 then f + 1
    else if f % 2 == 0 then f else f + 1
  }

  function Abs(x: real): (r: real)
    ensures r >= 0.0 && (r == x || r == -x)
  {
    if x < 0.0 then -x else x
  }

  /** An integer-valued real truncates to itself. */
  lemma TruncOfInteger(n: int)
    ensures Trunc(n as real) == n
  {
  }

  /** Truncation is monotone. */
  lemma TruncMonotone(x: real, y: real)
    requires x <= y
    ensures Trunc(x) <= Trunc(y)
  {
  }

  /**
   * Floor of a quotient by a positive integer never exceeds the floor of the
   * numerator divided by it: if k <= q / m then k * m <= Floor(q).
   */
  lemma FloorQuotientTimesDivisor(q: real, m: int)
    requires q >= 0.0 && m >= 1
    ensures (q / m as real).Floor * m <= q.Floor
  {
    var k := (q / m as real).Floor;
    assert k as real <= q / m as real;
    assert (k * m) as real == k as real * m as real;
    assert k as real * m as real <= q;
  }

  /** A whole number at most q / m is at most the floor of q / m. */
  lemma FloorQuotientAtLeast(q: real, m: int, step: int)
    requires q >= 0.0 && m >= 1 && (m * step) as real <= q
    ensures step <= (q / m as real).Floor
  {
    assert m as real * step as real <= q;
    assert step as real <= q / m as real;
  }

  lemma ProductSign(b: int, k: int)
    requires b > 0
    ensures b * k > 0 <==> k > 0
  {
    if k > 0 { assert b * k >= b; } else { assert b * k <= 0; }
  }

  /** If m copies of b fit in a, then a / b is at least m. */
  lemma DivisionLowerBound(a: int, b: int, m: int)
    requires a >= 0 && b >= 1 && m >= 0 && b * m <= a
    ensures a / b >= m
  {
    var q := a / b;
    var r := a % b;
    assert a == b * q + r && 0 <= r < b;
    var k := q + 1 - m;
    assert b * k == b * q + b - b * m;
    ProductSign(b, k);
  }

  /** Dividing by a larger positive number gives a smaller quotient. */
  lemma DivisionMonotone(a: int, b: int, c: int)
    requires a >= 0 && 1 <= b <= c
    ensures a / c <= a / b
  {
    assert (a / c) * b <= (a / c) * c <= a;
    DivisionLowerBound(a, b, a / c);
  }

  lemma RealProductSign(b: real, k: real)
    requires b > 0.0
    ensures b * k > 0.0 <==> k > 0.0
  {
    if k > 0.0 { assert b * k > 0.0; } else { assert b * k <= 0.0; }
  }

  lemma QuotientBelowOne(x: real, d: real)
    requires d > 0.0 && 0.0 <= x < d
    ensures x / d < 1.0
  {
    var q := x / d;
    assert q * d == x;
    assert d * (1.0 - q) == d - x;
    RealProductSign(d, 1.0 - q);
  }

  /** Euclidean division of a number in the first two periods of a positive divisor. */
  lemma ModWithinTwoPeriods(x: int, d: int)
    requires d > 0 && 0 <= x < 2 * d
    ensures x / d == (if x < d then 0 else 1)
    ensures x % d == (if x < d then x else x - d)
  {
    var q := x / d;
    var r := x % d;
    assert x == d * q + r && 0 <= r < d;
    assert d * (q + 1) == d * q + d;
    ProductSign(d, q + 1);
    assert d * (q - 2) == d * q - 2 * d;
    ProductSign(d, q - 2);
    assert q == 0 || q == 1;
  }
}
