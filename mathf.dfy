/** Scalar helpers of Clash.Maths.Mathf. Floats are modelled as reals. */
module Mathf {

  /** Absolute value (Math.Abs). */
  function Abs(x: real): (r: real)
    ensures r >= 0.0
    ensures r == x || r == -x
  {
    if x < 0.0 then -x else x
  }

  /** Math.Min(Math.Max(val, min), max): raise to `min`, then cut at `max`. */
  function Clamp(val: real, min: real, max: real): (r: real)
    ensures min <= max ==> min <= r <= max
    ensures min <= val <= max ==> r == val
    ensures min > max ==> r == max
    ensures r == val || r == min || r == max
  {
    var raised := if val < min then min else val;
    if raised < max then raised else max
  }

  lemma ClampIdempotent(val: real, min: real, max: real)
    ensures Clamp(Clamp(val, min, max), min, max) == Clamp(val, min, max)
  {
  }

  lemma ProductPositive(a: real, b: real)
    requires a > 0.0 && b > 0.0
    ensures a * b > 0.0
  {
  }

  lemma SquareNonNegative(x: real)
    ensures x * x >= 0.0
    ensures x == 0.0 ==> x * x == 0.0
  {
    if x < 0.0 {
      ProductPositive(-x, -x);
    } else if x > 0.0 {
      ProductPositive(x, x);
    } else {
      assert x * x == 0.0 * 0.0;
    }
  }

  /**
    * The square root under Hypot is not computed: a length is carried by its
    * square, x * x + y * y, and compared through squares (HypotAtMost).
    */
  function HypotSquared(x: real, y: real): (r: real)
    ensures r >= 0.0
    ensures x == 0.0 && y == 0.0 ==> r == 0.0
  {
    SquareNonNegative(x);
    SquareNonNegative(y);
    x * x + y * y
  }

  /** Hypot(x, y) == Hypot(-x, y) == Hypot(x, -y). */
  lemma HypotSignSymmetric(x: real, y: real)
    ensures HypotSquared(-x, y) == HypotSquared(x, y) == HypotSquared(x, -y)
  {
  }

  /** `h` is Hypot(x, y): the non-negative root of x * x + y * y. */
  ghost predicate IsHypot(x: real, y: real, h: real) {
    h >= 0.0 && h * h == HypotSquared(x, y)
  }

  /** Hypot(x, y) <= t, decided on squares. */
  predicate HypotAtMost(x: real, y: real, t: real) {
    t >= 0.0 && HypotSquared(x, y) <= t * t
  }

  /** Comparing squares decides the comparison of the roots themselves. */
  lemma {:induction false} HypotAtMostIsExact(x: real, y: real, h: real, t: real)
    requires IsHypot(x, y, h)
    ensures h <= t <==> HypotAtMost(x, y, t)
  {
    if h < t {
      ProductPositive(t - h, t + h);
      assert (t - h) * (t + h) == t * t - h * h;
    } else if h > t && t >= 0.0 {
      ProductPositive(h - t, h + t);
      assert (h - t) * (h + t) == h * h - t * t;
      assert HypotSquared(x, y) > t * t;
    }
  }
}
