/**
 * The optimizer's inputs and state as values.  A `Task` is what the
 * constructor receives; `Vars` is everything that persists between steps:
 * the primal variables, their extrapolations and the dual multipliers.
 */
module Model {
  import opened Numerics
  import opened Layout

  /** grid_sizes, rays (cell indices), ray_costs_occ, ray_costs_free, nonconvex. */
  datatype Task = Task(
    gridSizes: seq<int>,
    rays: seq<seq<int>>,
    costsOcc: seq<seq<real>>,
    costsFree: seq<real>,
    nonconvex: bool)

  datatype Vars = Vars(
    yOcc: seq<seq<real>>,
    yFree: seq<seq<real>>,
    xOcc: seq<real>,
    extraYOcc: seq<seq<real>>,
    extraYFree: seq<seq<real>>,
    extraXOcc: seq<real>,
    dualOccFree: seq<seq<real>>,
    dualFreeFree: seq<seq<real>>,
    dualOccX: seq<seq<real>>,
    dualFreeX: seq<seq<real>>,
    dualVis: Option<seq<seq<real>>>)

  /** n_cells, the product of the grid sizes. */
  function NCells(t: Task): int {
    Product(t.gridSizes)
  }

  /** Length of every per-cell array. */
  function NumCells(t: Task): nat {
    NonNeg(NCells(t))
  }

  /**
   * What the code needs of its inputs: `reduce` needs at least one grid size,
   * every ray is non-empty (the free cost goes to its last position), every
   * cell index addresses a cell, and every ray has its costs.
   */
  ghost predicate TaskOk(t: Task) {
    && |t.gridSizes| >= 1
    && |t.costsOcc| >= |t.rays|
    && |t.costsFree| >= |t.rays|
    && forall r :: 0 <= r < |t.rays| ==>
         && |t.rays[r]| >= 1
         && |t.costsOcc[r]| >= |t.rays[r]|
         && forall p :: 0 <= p < |t.rays[r]| ==> 0 <= t.rays[r][p] < NCells(t)
  }

  /** Every array has the shape derived from the rays and the grid. */
  ghost predicate VarsOk(t: Task, v: Vars) {
    && ShapedLike(v.yOcc, t.rays)
    && ShapedLike(v.yFree, t.rays)
    && |v.xOcc| == NumCells(t)
    && ShapedLike(v.extraYOcc, t.rays)
    && ShapedLike(v.extraYFree, t.rays)
    && |v.extraXOcc| == NumCells(t)
    && ShapedLike(v.dualOccFree, t.rays)
    && ShapedLike(v.dualFreeFree, t.rays)
    && ShapedLike(v.dualOccX, t.rays)
    && ShapedLike(v.dualFreeX, t.rays)
    && (v.dualVis.Some? <==> t.nonconvex)
    && (v.dualVis.Some? ==> ShapedLike(v.dualVis.value, t.rays))
  }

  ghost predicate Wf(t: Task, v: Vars) {
    TaskOk(t) && VarsOk(t, v)
  }

  /**
   * `linear_branch > 0` for position `p >= 1` of ray `r`: the predecessor's
   * free indicator plus the cell's occupancy exceeds one.
   */
  function Active(t: Task, v: Vars, r: nat, p: nat): bool
    requires Wf(t, v) && r < |t.rays| && 1 <= p < |t.rays[r]|
  {
    v.yFree[r][p - 1] + v.xOcc[t.rays[r][p]] - 1.0 > 0.0
  }

  /** Every primal value lies in [0, 1]. */
  ghost predicate InUnitBox(v: Vars) {
    && (forall r, p :: 0 <= r < |v.yOcc| && 0 <= p < |v.yOcc[r]| ==> 0.0 <= v.yOcc[r][p] <= 1.0)
    && (forall r, p :: 0 <= r < |v.yFree| && 0 <= p < |v.yFree[r]| ==> 0.0 <= v.yFree[r][p] <= 1.0)
    && (forall c :: 0 <= c < |v.xOcc| ==> 0.0 <= v.xOcc[c] <= 1.0)
  }

  ghost predicate NonnegRagged(a: seq<seq<real>>) {
    forall r, p :: 0 <= r < |a| && 0 <= p < |a[r]| ==> a[r][p] >= 0.0
  }

  /** Every dual multiplier is non-negative. */
  ghost predicate DualsNonneg(v: Vars) {
    && NonnegRagged(v.dualOccFree)
    && NonnegRagged(v.dualFreeFree)
    && NonnegRagged(v.dualOccX)
    && NonnegRagged(v.dualFreeX)
    && (v.dualVis.Some? ==> NonnegRagged(v.dualVis.value))
  }

  ghost predicate FirstColumnZero(a: seq<seq<real>>) {
    forall r :: 0 <= r < |a| && |a[r]| >= 1 ==> a[r][0] == 0.0
  }

  /**
   * The multipliers of the constraints that link a position to its
   * predecessor are zero at position 0, which has no predecessor.
   */
  ghost predicate EdgeDualsZero(v: Vars) {
    && FirstColumnZero(v.dualOccFree)
    && FirstColumnZero(v.dualFreeFree)
    && (v.dualVis.Some? ==> FirstColumnZero(v.dualVis.value))
  }

  /** No ray of `rays[..m]` crosses cell `c`. */
  ghost predicate UnreachedBefore(rays: seq<seq<int>>, c: int, m: nat)
    requires m <= |rays|
  {
    forall r, p :: 0 <= r < m && 0 <= p < |rays[r]| ==> rays[r][p] != c
  }

  ghost predicate Unreached(rays: seq<seq<int>>, c: int) {
    UnreachedBefore(rays, c, |rays|)
  }

  /** A cell no ray crosses is at zero, and so is its extrapolation. */
  ghost predicate UnreachedCellsAtZero(t: Task, v: Vars) {
    forall c :: 0 <= c < |v.xOcc| && c < |v.extraXOcc| && Unreached(t.rays, c) ==>
      v.xOcc[c] == 0.0 && v.extraXOcc[c] == 0.0
  }

  /** What holds of the optimizer's state between any two steps. */
  ghost predicate Invariant(t: Task, v: Vars) {
    && Wf(t, v)
    && InUnitBox(v)
    && DualsNonneg(v)
    && EdgeDualsZero(v)
    && UnreachedCellsAtZero(t, v)
  }

  /** `init_variables`: the state right after construction. */
  function Init(t: Task): (v: Vars)
    requires TaskOk(t)
    ensures Invariant(t, v)
    ensures forall r, p :: 0 <= r < |t.rays| && 0 <= p < |t.rays[r]| ==>
      v.yOcc[r][p] == 0.0 && v.yFree[r][p] == 1.0
    ensures forall c :: 0 <= c < |v.xOcc| ==> v.xOcc[c] == 0.0
    ensures v.extraYOcc == v.yOcc && v.extraYFree == v.yFree && v.extraXOcc == v.xOcc
    ensures forall r, p :: 0 <= r < |t.rays| && 0 <= p < |t.rays[r]| ==>
      v.dualOccFree[r][p] == 0.0 && v.dualFreeFree[r][p] == 0.0 &&
      v.dualOccX[r][p] == 0.0 && v.dualFreeX[r][p] == 0.0
    ensures v.dualVis.Some? <==> t.nonconvex
    ensures v.dualVis.Some? ==> forall r, p :: 0 <= r < |t.rays| && 0 <= p < |t.rays[r]| ==>
      v.dualVis.value[r][p] == 0.0
  {
    var yOcc := ZerosAlongRays(t.rays);
    var yFree := OnesAlongRays(t.rays);
    var xOcc := ZerosAllCells(NCells(t));
    Vars(yOcc, yFree, xOcc, yOcc, yFree, xOcc,
         ZerosAlongRays(t.rays), ZerosAlongRays(t.rays),
         ZerosAlongRays(t.rays), ZerosAlongRays(t.rays),
         if t.nonconvex then Some(ZerosAlongRays(t.rays)) else None)
  }

  /** Number of positions among the first `n` of `ray` that are cell `c`. */
  function RayHits(ray: seq<int>, c: int, n: nat): nat
    requires n <= |ray|
  {
    if n == 0 then 0 else RayHits(ray, c, n - 1) + (if ray[n - 1] == c then 1 else 0)
  }

  /** Number of (ray, position) pairs of `rays[..m]` at cell `c`. */
  function Hits(rays: seq<seq<int>>, c: int, m: nat): nat
    requires m <= |rays|
  {
    if m == 0 then 0 else Hits(rays, c, m - 1) + RayHits(rays[m - 1], c, |rays[m - 1]|)
  }

  lemma {:induction false} RayHitsZeroIff(ray: seq<int>, c: int, n: nat)
    requires n <= |ray|
    ensures RayHits(ray, c, n) == 0 <==> forall p :: 0 <= p < n ==> ray[p] != c
  {
    if n > 0 {
      RayHitsZeroIff(ray, c, n - 1);
    }
  }

  /** A cell has no hits exactly when no ray crosses it. */
  lemma {:induction false} HitsZeroIffUnreached(rays: seq<seq<int>>, c: int, m: nat)
    requires m <= |rays|
    ensures Hits(rays, c, m) == 0 <==> UnreachedBefore(rays, c, m)
  {
    if m > 0 {
      HitsZeroIffUnreached(rays, c, m - 1);
      RayHitsZeroIff(rays[m - 1], c, |rays[m - 1]|);
      if UnreachedBefore(rays, c, m - 1) && RayHits(rays[m - 1], c, |rays[m - 1]|) == 0 {
        forall r, p | 0 <= r < m && 0 <= p < |rays[r]|
          ensures rays[r][p] != c
        {
          if r < m - 1 {
            assert UnreachedBefore(rays, c, m - 1);
          }
        }
      }
    }
  }
}
