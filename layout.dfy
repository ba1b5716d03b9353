/**
 * Containers of the optimizer: per-ray ("ragged") arrays, one row per ray and
 * one entry per cell the ray crosses, and per-cell arrays of length n_cells.
 */
module Layout {
  import opened Numerics

  datatype Option<T> = None | Some(value: T)

  /** `a` has one row per ray, and row `r` as many entries as ray `r` has cells. */
  ghost predicate ShapedLike(a: seq<seq<real>>, rays: seq<seq<int>>) {
    |a| == |rays| && forall r :: 0 <= r < |a| ==> |a[r]| == |rays[r]|
  }

  /** A ragged array shaped like `rays` holding `value` everywhere. */
  function AlongRays(rays: seq<seq<int>>, value: real): (a: seq<seq<real>>)
    ensures ShapedLike(a, rays)
    ensures forall r, p :: 0 <= r < |a| && 0 <= p < |a[r]| ==> a[r][p] == value
  {
    seq(|rays|, r requires 0 <= r < |rays| => seq(|rays[r]|, _ => value))
  }

  /** `get_zeros_along_rays`. */
  function ZerosAlongRays(rays: seq<seq<int>>): (a: seq<seq<real>>)
    ensures ShapedLike(a, rays)
    ensures forall r, p :: 0 <= r < |a| && 0 <= p < |a[r]| ==> a[r][p] == 0.0
  {
    AlongRays(rays, 0.0)
  }

  /** `get_ones_along_rays`. */
  function OnesAlongRays(rays: seq<seq<int>>): (a: seq<seq<real>>)
    ensures ShapedLike(a, rays)
    ensures forall r, p :: 0 <= r < |a| && 0 <= p < |a[r]| ==> a[r][p] == 1.0
  {
    AlongRays(rays, 1.0)
  }

  /** `get_zeros_all_cells`: `[0.0] * n_cells`. */
  function ZerosAllCells(nCells: int): (a: seq<real>)
    ensures |a| == NonNeg(nCells)
    ensures forall c :: 0 <= c < |a| ==> a[c] == 0.0
  {
    seq(NonNeg(nCells), _ => 0.0)
  }

  /** Two ragged arrays with the same number of rows and the same row lengths. */
  ghost predicate SameShape(a: seq<seq<real>>, b: seq<seq<real>>) {
    |a| == |b| && forall r :: 0 <= r < |a| ==> |a[r]| == |b[r]|
  }

  /** Entry-wise `delta / max(1.0, weight)`: the division step of the primal pass. */
  function Divided(deltas: seq<real>, weights: seq<real>): (a: seq<real>)
    requires |deltas| == |weights|
    ensures |a| == |deltas|
    ensures forall i :: 0 <= i < |a| ==> a[i] == deltas[i] / MaxOne(weights[i])
  {
    seq(|deltas|, i requires 0 <= i < |deltas| => deltas[i] / MaxOne(weights[i]))
  }

  /** Entry-wise `value - delta`. */
  function Subtracted(values: seq<real>, deltas: seq<real>): (a: seq<real>)
    requires |values| == |deltas|
    ensures |a| == |values|
    ensures forall i :: 0 <= i < |a| ==> a[i] == values[i] - deltas[i]
  {
    seq(|values|, i requires 0 <= i < |values| => values[i] - deltas[i])
  }

  /** Entry-wise `clamp01`. */
  function Clamped(values: seq<real>): (a: seq<real>)
    ensures |a| == |values|
    ensures forall i :: 0 <= i < |a| ==> 0.0 <= a[i] <= 1.0 && a[i] == Clamp01(values[i])
  {
    seq(|values|, i requires 0 <= i < |values| => Clamp01(values[i]))
  }

  /** Entry-wise `clamp_nonneg`. */
  function ClampedNonneg(values: seq<real>): (a: seq<real>)
    ensures |a| == |values|
    ensures forall i :: 0 <= i < |a| ==> a[i] >= 0.0 && a[i] == ClampNonneg(values[i])
  {
    seq(|values|, i requires 0 <= i < |values| => ClampNonneg(values[i]))
  }

  /** Entry-wise `2 * current - previous`. */
  function Extrapolated(current: seq<real>, previous: seq<real>): (a: seq<real>)
    requires |current| == |previous|
    ensures |a| == |current|
    ensures forall i :: 0 <= i < |a| ==> a[i] == Extrapolate(current[i], previous[i])
  {
    seq(|current|, i requires 0 <= i < |current| => Extrapolate(current[i], previous[i]))
  }

  /** `Divided` on every row of a ragged array. */
  function DividedRagged(deltas: seq<seq<real>>, weights: seq<seq<real>>): (a: seq<seq<real>>)
    requires SameShape(deltas, weights)
    ensures SameShape(a, deltas)
    ensures forall rays :: ShapedLike(deltas, rays) ==> ShapedLike(a, rays)
    ensures forall r :: 0 <= r < |a| ==> a[r] == Divided(deltas[r], weights[r])
  {
    seq(|deltas|, r requires 0 <= r < |deltas| => Divided(deltas[r], weights[r]))
  }

  /** `Subtracted` on every row of a ragged array. */
  function SubtractedRagged(values: seq<seq<real>>, deltas: seq<seq<real>>): (a: seq<seq<real>>)
    requires SameShape(values, deltas)
    ensures SameShape(a, values)
    ensures forall rays :: ShapedLike(values, rays) ==> ShapedLike(a, rays)
    ensures forall r :: 0 <= r < |a| ==> a[r] == Subtracted(values[r], deltas[r])
  {
    seq(|values|, r requires 0 <= r < |values| => Subtracted(values[r], deltas[r]))
  }

  /** `Clamped` on every row of a ragged array. */
  function ClampedRagged(values: seq<seq<real>>): (a: seq<seq<real>>)
    ensures SameShape(a, values)
    ensures forall rays :: ShapedLike(values, rays) ==> ShapedLike(a, rays)
    ensures forall r :: 0 <= r < |a| ==> a[r] == Clamped(values[r])
  {
    seq(|values|, r requires 0 <= r < |values| => Clamped(values[r]))
  }

  /** `ClampedNonneg` on every row of a ragged array. */
  function ClampedNonnegRagged(values: seq<seq<real>>): (a: seq<seq<real>>)
    ensures SameShape(a, values)
    ensures forall rays :: ShapedLike(values, rays) ==> ShapedLike(a, rays)
    ensures forall r :: 0 <= r < |a| ==> a[r] == ClampedNonneg(values[r])
  {
    seq(|values|, r requires 0 <= r < |values| => ClampedNonneg(values[r]))
  }

  /** `Extrapolated` on every row of a ragged array. */
  function ExtrapolatedRagged(current: seq<seq<real>>, previous: seq<seq<real>>): (a: seq<seq<real>>)
    requires SameShape(current, previous)
    ensures SameShape(a, current)
    ensures forall rays :: ShapedLike(current, rays) ==> ShapedLike(a, rays)
    ensures forall r :: 0 <= r < |a| ==> a[r] == Extrapolated(current[r], previous[r])
  {
    seq(|current|, r requires 0 <= r < |current| => Extrapolated(current[r], previous[r]))
  }

  /** A fresh array holding `values`. */
  method FromSeq(values: seq<real>) returns (a: array<real>)
    ensures fresh(a) && a[..] == values
  {
    a := new real[|values|](i requires 0 <= i < |values| => values[i]);
  }
}
