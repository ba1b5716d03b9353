/**
 * Scalar building blocks of the ray-potential optimizer: the two projections
 * used after every update, the floor on preconditioner weights, the
 * extrapolation of a primal value, and the product of the grid sizes.
 * All arithmetic is exact (`real`), not IEEE floating point.
 */
module Numerics {

  /** Distance between two reals, used to state that the clamps are projections. */
  function Dist(a: real, b: real): real {
    if a < b then b - a else a - b
  }

  /** `max(0.0, min(1.0, value))`: the projection onto the unit interval. */
  function Clamp01(value: real): (r: real)
    ensures 0.0 <= r <= 1.0
    ensures 0.0 <= value <= 1.0 ==> r == value
    ensures value < 0.0 ==> r == 0.0
    ensures value > 1.0 ==> r == 1.0
  {
    var upper := if 1.0 < value then 1.0 else value;
    if 0.0 < upper then upper else 0.0
  }

  /** No point of [0, 1] is closer to `value` than `Clamp01(value)`. */
  lemma Clamp01IsNearest(value: real, u: real)
    requires 0.0 <= u <= 1.0
    ensures Dist(Clamp01(value), value) <= Dist(u, value)
  {
  }

  /** `max(0.0, value)`: the projection onto the non-negative reals. */
  function ClampNonneg(value: real): (r: real)
    ensures r >= 0.0
    ensures value >= 0.0 ==> r == value
    ensures value < 0.0 ==> r == 0.0
  {
    if 0.0 < value then value else 0.0
  }

  /** `max(1.0, weight)`: the divisor applied to a primal delta. */
  function MaxOne(weight: real): (r: real)
    ensures r >= 1.0 && r >= weight
    ensures r == 1.0 || r == weight
  {
    if 1.0 < weight then weight else 1.0
  }

  /**
   * One preconditioned projected descent step on a single primal value:
   * divide the accumulated delta by the floored weight, subtract it, clamp.
   */
  function Descend(value: real, delta: real, weight: real): (r: real)
    ensures 0.0 <= r <= 1.0
    ensures 0.0 <= value <= 1.0 && delta == 0.0 ==> r == value
    ensures 0.0 <= value <= 1.0 && delta >= 0.0 ==> r <= value
    ensures 0.0 <= value <= 1.0 && delta <= 0.0 ==> r >= value
  {
    Clamp01(value - delta / MaxOne(weight))
  }

  /**
   * The look-ahead point `2 * current - previous`: `current` is the midpoint
   * of `previous` and the result.
   */
  function Extrapolate(current: real, previous: real): (e: real)
    ensures e - current == current - previous
    ensures 0.0 <= current <= 1.0 && 0.0 <= previous <= 1.0 ==> -1.0 <= e <= 2.0
  {
    2.0 * current - previous
  }

  /** `reduce(lambda x, y: x * y, sizes)`: the number of cells of the grid. */
  function Product(sizes: seq<int>): (n: int)
    ensures (forall i :: 0 <= i < |sizes| ==> sizes[i] > 0) ==> n > 0
    ensures (forall i :: 0 <= i < |sizes| ==> sizes[i] >= 0) ==> n >= 0
  {
    if |sizes| == 0 then 1 else Product(sizes[..|sizes| - 1]) * sizes[|sizes| - 1]
  }

  /** The length of the list `[0.0] * n`, which is empty for negative `n`. */
  function NonNeg(n: int): nat {
    if n < 0 then 0 else n
  }
}
