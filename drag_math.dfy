/** Integer arithmetic behind the floating button's drag rules: Java's
    truncating division by two, moving a coordinate into an interval, and
    the truncated square root that measures how far a finger moved. */
module DragMath {

  /** Java's `n / 2` on an `int`: the quotient is truncated toward zero,
      where Dafny's `/` rounds toward negative infinity for negative `n`. */
  function HalfTowardZero(n: int): (r: int)
    ensures 0 <= n ==> 0 <= n - 2 * r <= 1
    ensures n < 0 ==> -1 <= n - 2 * r <= 0
  {
    if n >= 0 then n / 2 else -((-n) / 2)
  }

  /** The coordinate `v` moved into `[0, hi]`. The test against 0 comes
      first, so when the interval is empty a negative `v` still becomes 0. */
  function Clamp(v: int, hi: int): (r: int)
    ensures 0 <= hi ==> 0 <= r <= hi
    ensures 0 <= v <= hi ==> r == v
    ensures r == v || r == 0 || r == hi
    ensures v < 0 ==> r == 0
    ensures 0 <= v && hi < v ==> r == hi
  {
    if v < 0 then 0 else if v > hi then hi else v
  }

  /** `dx * dx + dy * dy`, the squared length of a finger movement. */
  function SquaredDistance(dx: int, dy: int): nat
  {
    SquareNonNegative(dx);
    SquareNonNegative(dy);
    dx * dx + dy * dy
  }

  lemma SquareNonNegative(a: int)
    ensures a * a >= 0
  {
    if a < 0 {
      assert a * a == (-a) * (-a);
    }
  }

  /** `(int) Math.sqrt(n)`: the largest natural number whose square does
      not exceed `n`. Meant as a specification: it recurses once per unit
      of `n`, so compiled it would be far too slow for real distances. */
  function FloorSqrt(n: nat): (r: nat)
    ensures r * r <= n < (r + 1) * (r + 1)
  {
    if n == 0 then 0
    else
      var s := FloorSqrt(n - 1);
      if (s + 1) * (s + 1) <= n then
        assert (s + 2) * (s + 2) == (s + 1) * (s + 1) + 2 * s + 3;
        s + 1
      else
        s
  }

  lemma SquareMonotone(a: nat, b: nat)
    requires a <= b
    ensures a * a <= b * b
  {
    var d: nat := b - a;
    var ad: nat := a * d;
    var bd: nat := b * d;
    assert a * b == a * a + ad;
    assert b * b == a * b + bd;
  }

  /** The truncated distance is at most `k` exactly when the squared
      distance is below `(k + 1)^2`: a test without square roots. */
  lemma {:induction false} FloorSqrtAtMost(n: nat, k: nat)
    ensures FloorSqrt(n) <= k <==> n < (k + 1) * (k + 1)
  {
    var r := FloorSqrt(n);
    if r <= k {
      SquareMonotone(r + 1, k + 1);
    } else {
      SquareMonotone(k + 1, r);
    }
  }
}
