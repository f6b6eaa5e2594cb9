/** Numeric helpers shared by the model: Python's `int()` on a float and
    Python's `min`/`max`, over mathematical reals. */
module Numeric {

  /** Python `int(x)` for a float `x`: truncation toward zero. */
  function Trunc(x: real): (r: int)
    ensures 0.0 <= x ==> r as real <= x < r as real + 1.0
    ensures x < 0.0 ==> r as real - 1.0 < x <= r as real
  {
    if x >= 0.0 then x.Floor else -((-x).Floor)
  }

  function Min(a: real, b: real): (r: real)
    ensures r <= a && r <= b && (r == a || r == b)
  {
    if a <= b then a else b
  }

  function Max(a: real, b: real): (r: real)
    ensures a <= r && b <= r && (r == a || r == b)
  {
    if a >= b then a else b
  }

  function Abs(x: real): (r: real)
    ensures 0.0 <= r && (r == x || r == -x)
  {
    if x < 0.0 then -x else x
  }

  /** Python `min(max(v, lo), hi)`: the clamp every limiter of the source writes. */
  function ClampTo(v: real, lo: real, hi: real): real
  {
    Min(Max(v, lo), hi)
  }

  lemma ClampToWithin(v: real, lo: real, hi: real)
    requires lo <= hi
    ensures lo <= ClampTo(v, lo, hi) <= hi
    ensures lo <= v <= hi ==> ClampTo(v, lo, hi) == v
  {
  }

  lemma MulNonNegative(a: real, b: real)
    requires 0.0 <= a && 0.0 <= b
    ensures 0.0 <= a * b
  {
  }

  /** A factor in [-1, 1] keeps a non-negative scale's product within the scale. */
  lemma ScaleWithin(r: real, d: real)
    requires 0.0 <= r && -1.0 <= d <= 1.0
    ensures -r <= r * d <= r
  {
    MulNonNegative(r, 1.0 - d);
    MulNonNegative(r, d + 1.0);
    assert r * (1.0 - d) == r - r * d;
    assert r * (d + 1.0) == r * d + r;
  }

  /** Truncation leaves whole numbers alone. */
  lemma TruncOfInt(n: int)
    ensures Trunc(n as real) == n
  {
  }

  lemma TruncMonotone(x: real, y: real)
    requires x <= y
    ensures Trunc(x) <= Trunc(y)
  {
    if 0.0 <= x {
      assert x.Floor <= y.Floor;
    } else if y < 0.0 {
      assert (-y).Floor <= (-x).Floor;
    }
  }

  /** A value between two whole numbers truncates to a whole number between them. */
  lemma TruncBetween(x: real, lo: int, hi: int)
    requires lo as real <= x <= hi as real
    ensures lo <= Trunc(x) <= hi
  {
    TruncMonotone(lo as real, x);
    TruncMonotone(x, hi as real);
    TruncOfInt(lo);
    TruncOfInt(hi);
  }

  lemma TruncOdd(x: real)
    ensures Trunc(-x) == -Trunc(x)
  {
  }
}
