/** Real and integer helpers that give Python's built-ins their exact meaning. */
module Numeric {

  /** Python `abs` on a number. */
  function Abs(x: real): (r: real)
    ensures r >= 0.0
    ensures r == x || r == -x
  {
    if x < 0.0 then -x else x
  }

  /** Python `min` of two numbers. */
  function Min(x: real, y: real): (r: real)
    ensures r <= x && r <= y
    ensures r == x || r == y
  {
    if x <= y then x else y
  }

  /** Python `max` of two numbers. */
  function Max(x: real, y: real): (r: real)
    ensures r >= x && r >= y
    ensures r == x || r == y
  {
    if x >= y then x else y
  }

  /** `max(lo, min(hi, x))`, the clamp the source writes out by hand. */
  function Clamp(lo: real, hi: real, x: real): (r: real)
    requires lo <= hi
    ensures lo <= r <= hi
    ensures lo <= x <= hi ==> r == x
  {
    Max(lo, Min(hi, x))
  }

  /**
   * Python `int(a / b)` for integers `a` and `b > 0`: the true quotient
   * truncated toward zero (Dafny's `/` on int is Euclidean and rounds a
   * negative quotient down instead).
   */
  function TruncDiv(a: int, b: int): (q: int)
    requires b > 0
    ensures a >= 0 ==> 0 <= q <= a && q * b <= a < q * b + b
    ensures a < 0 ==> a <= q <= 0 && q * b - b < a <= q * b
  {
    if a >= 0 then
      QuotientBound(a, b);
      a / b
    else
      QuotientBound(-a, b);
      -((-a) / b)
  }

  /** A non-negative integer's Euclidean quotient by a positive divisor is at most the integer. */
  lemma QuotientBound(a: int, b: int)
    requires a >= 0 && b > 0
    ensures 0 <= a / b <= a
    ensures (a / b) * b <= a < (a / b) * b + b
  {
    var q := a / b;
    assert q * b <= a;
    assert q * (b - 1) >= 0 by { NonNegativeIntProduct(q, b - 1); }
    assert q * b == q * (b - 1) + q;
  }

  /** The product of two non-negative integers is non-negative. */
  lemma NonNegativeIntProduct(x: int, y: int)
    requires x >= 0 && y >= 0
    ensures x * y >= 0
  {
  }

  /** The product of two non-negative reals is non-negative. */
  lemma NonNegativeRealProduct(x: real, y: real)
    requires 0.0 <= x && 0.0 <= y
    ensures 0.0 <= x * y
  {
  }

  /** Python `sum` of a list of integers, added from the back. */
  function IntSum(xs: seq<int>): int
  {
    if xs == [] then 0 else IntSum(xs[..|xs| - 1]) + xs[|xs| - 1]
  }

  /** Python `sum` of a list of reals, added from the back. */
  function RealSum(xs: seq<real>): real
  {
    if xs == [] then 0.0 else RealSum(xs[..|xs| - 1]) + xs[|xs| - 1]
  }
}
