/**
  * Clash.Maths.Vec: an immutable pair of coordinates. Only subtraction, Mag
  * and Zero belong to Vec.cs; addition, scaling and Reverse are the vector
  * operations that Player.cs uses without their definitions being part of
  * this model, taken here with their ordinary component-wise meaning.
  */
module Vecs {
  import Mathf

  datatype Vec = Vec(x: real, y: real)

  /** `Vec.Zero`, the default value. */
  const Zero := Vec(0.0, 0.0)

  /** operator -: component-wise difference. */
  function Sub(a: Vec, b: Vec): (r: Vec)
    ensures Add(r, b) == a
  {
    Vec(a.x - b.x, a.y - b.y)
  }

  /** operator + (used by Player.cs). */
  function Add(a: Vec, b: Vec): (r: Vec)
  {
    Vec(a.x + b.x, a.y + b.y)
  }

  /** operator * by a scalar (used by Player.cs). */
  function Scale(a: Vec, k: real): (r: Vec)
    ensures k == 0.0 ==> r == Zero
    ensures k == 1.0 ==> r == a
  {
    Vec(a.x * k, a.y * k)
  }

  /** Reverse(): the opposite vector (used by Player.cs). */
  function Reverse(a: Vec): (r: Vec)
    ensures Add(a, r) == Zero
  {
    Vec(-a.x, -a.y)
  }

  /** The square of Mag() == Hypot(X, Y); see Mathf.HypotSquared. */
  function MagSquared(v: Vec): (r: real)
    ensures r >= 0.0
    ensures v == Zero ==> r == 0.0
  {
    Mathf.HypotSquared(v.x, v.y)
  }

  /** Mag() <= t. */
  predicate MagAtMost(v: Vec, t: real) {
    Mathf.HypotAtMost(v.x, v.y, t)
  }

  /** Adding b back undoes subtracting it, and the other way round. */
  lemma AddSubInverse(a: Vec, b: Vec)
    ensures Sub(Add(a, b), b) == a
    ensures Add(Sub(a, b), b) == a
  {
  }

  lemma SubZero(a: Vec)
    ensures Sub(a, Zero) == a
    ensures Sub(a, a) == Zero
  {
  }

  lemma ReverseInvolutive(a: Vec)
    ensures Reverse(Reverse(a)) == a
    ensures MagSquared(Reverse(a)) == MagSquared(a)
  {
    Mathf.HypotSignSymmetric(a.x, a.y);
    Mathf.HypotSignSymmetric(-a.x, a.y);
  }
}
