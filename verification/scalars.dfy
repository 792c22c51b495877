/**
 Scalar helpers shared by the estimator and the normalisers: absolute value,
 `min`/`max` and the symmetric clamp `max(-b, min(b, x))` that the source
 writes out at every use.
 */
module Scalars {

  function Abs(x: real): (r: real)
    ensures r >= 0.0
    ensures r == x || r == -x
  {
    if x < 0.0 then -x else x
  }

  function Min(a: real, b: real): (r: real)
    ensures r <= a && r <= b
    ensures r == a || r == b
  {
    if a <= b then a else b
  }

  function Max(a: real, b: real): (r: real)
    ensures r >= a && r >= b
    ensures r == a || r == b
  {
    if a >= b then a else b
  }

  /** `max(-bound, min(bound, x))`: the nearest point of [-bound, bound] to x. */
  function Clamp(bound: real, x: real): (r: real)
    requires bound >= 0.0
    ensures -bound <= r <= bound
    ensures -bound <= x <= bound ==> r == x
    ensures x > bound ==> r == bound
    ensures x < -bound ==> r == -bound
  {
    Max(-bound, Min(bound, x))
  }

  /** Clamping never reverses the order of two inputs. */
  lemma ClampMonotone(bound: real, x: real, y: real)
    requires bound >= 0.0
    requires x <= y
    ensures Clamp(bound, x) <= Clamp(bound, y)
  {
  }

  /** b raised to the k-th power, multiplying in one factor per step. */
  function Pow(b: real, k: nat): real {
    if k == 0 then 1.0 else Pow(b, k - 1) * b
  }
}
