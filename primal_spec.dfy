/**
 * What one primal pass computes, stated per entry rather than as the
 * scatter loop of the code.  For every primal coordinate the pass gathers a
 * delta (its cost plus the duals of the constraints it appears in, with the
 * sign it has there) and a weight (the number of those constraint terms, the
 * absolute row sum of the coupling matrix for that coordinate), then takes
 * one preconditioned projected descent step and extrapolates.
 */
module PrimalSpec {
  import opened Numerics
  import opened Layout
  import opened Model

  /** The visibility term of (r, p) is present and on its linear branch. */
  predicate OnLinearBranch(t: Task, v: Vars, r: nat, p: nat)
    requires Wf(t, v) && r < |t.rays| && p < |t.rays[r]|
  {
    t.nonconvex && p >= 1 && Active(t, v, r, p)
  }

  /** dual_vis_con[r][p] in non-convex mode; the term is absent otherwise. */
  function VisDual(t: Task, v: Vars, r: nat, p: nat): real
    requires Wf(t, v) && r < |t.rays| && p < |t.rays[r]|
  {
    if t.nonconvex then v.dualVis.value[r][p] else 0.0
  }

  /** Everything the pass adds to dy_occ[r][p]. */
  function DyOcc(t: Task, v: Vars, r: nat, p: nat): real
    requires Wf(t, v) && r < |t.rays| && p < |t.rays[r]|
  {
    t.costsOcc[r][p]
    + (if p >= 1 then v.dualOccFree[r][p] + VisDual(t, v, r, p) else 0.0)
    + v.dualOccX[r][p]
  }

  /** What position p adds to dy_free[r][p]. */
  function DyFreeOwn(t: Task, v: Vars, r: nat, p: nat): real
    requires Wf(t, v) && r < |t.rays| && p < |t.rays[r]|
  {
    (if p >= 1 then v.dualFreeFree[r][p] else 0.0) + v.dualFreeX[r][p]
  }

  /** What position p >= 1 subtracts from dy_free[r][p - 1]. */
  function DyFreeBack(t: Task, v: Vars, r: nat, p: nat): real
    requires Wf(t, v) && r < |t.rays| && 1 <= p < |t.rays[r]|
  {
    v.dualOccFree[r][p] + v.dualFreeFree[r][p]
    + (if OnLinearBranch(t, v, r, p) then VisDual(t, v, r, p) else 0.0)
  }

  /** The whole delta of y_free[r][p]; the free-space cost goes to the last position. */
  function DyFree(t: Task, v: Vars, r: nat, p: nat): real
    requires Wf(t, v) && r < |t.rays| && p < |t.rays[r]|
  {
    DyFreeOwn(t, v, r, p)
    - (if p + 1 < |t.rays[r]| then DyFreeBack(t, v, r, p + 1) else 0.0)
    + (if p + 1 == |t.rays[r]| then t.costsFree[r] else 0.0)
  }

  /** pc_y_occ[r][p]: 1 at the first position, 2 further on, 3 with the visibility term. */
  function YOccWeight(nonconvex: bool, p: nat): real {
    if p == 0 then 1.0 else if nonconvex then 3.0 else 2.0
  }

  /** The part of pc_y_free[r][p] contributed by position p itself. */
  function YFreeOwnWeight(p: nat): real {
    if p == 0 then 1.0 else 2.0
  }

  /** The part of pc_y_free[r][p - 1] contributed by position p >= 1. */
  function YFreeBackWeight(t: Task, v: Vars, r: nat, p: nat): real
    requires Wf(t, v) && r < |t.rays| && 1 <= p < |t.rays[r]|
  {
    if OnLinearBranch(t, v, r, p) then 3.0 else 2.0
  }

  /** pc_y_free[r][p]. */
  function YFreeWeight(t: Task, v: Vars, r: nat, p: nat): real
    requires Wf(t, v) && r < |t.rays| && p < |t.rays[r]|
  {
    YFreeOwnWeight(p) + (if p + 1 < |t.rays[r]| then YFreeBackWeight(t, v, r, p + 1) else 0.0)
  }

  /** The two per-cell accumulators of the pass. */
  datatype Tally = Delta | Weight

  /** What occurrence (r, p) of a cell adds to dx_occ or to pc_x_occ of that cell. */
  function CellTerm(t: Task, v: Vars, k: Tally, r: nat, p: nat): real
    requires Wf(t, v) && r < |t.rays| && p < |t.rays[r]|
  {
    match k
    case Delta =>
      v.dualFreeX[r][p] - v.dualOccX[r][p]
      - (if OnLinearBranch(t, v, r, p) then VisDual(t, v, r, p) else 0.0)
    case Weight =>
      if OnLinearBranch(t, v, r, p) then 3.0 else 2.0
  }

  /** Sum of the terms of the first `n` positions of ray `r` that are at cell `c`. */
  function RaySum(t: Task, v: Vars, k: Tally, c: int, r: nat, n: nat): real
    requires Wf(t, v) && r < |t.rays| && n <= |t.rays[r]|
  {
    if n == 0 then 0.0
    else RaySum(t, v, k, c, r, n - 1)
         + (if t.rays[r][n - 1] == c then CellTerm(t, v, k, r, n - 1) else 0.0)
  }

  /** Sum of the terms at cell `c` over the rays `rays[..m]`. */
  function CellSum(t: Task, v: Vars, k: Tally, c: int, m: nat): real
    requires Wf(t, v) && m <= |t.rays|
  {
    if m == 0 then 0.0
    else CellSum(t, v, k, c, m - 1) + RaySum(t, v, k, c, m - 1, |t.rays[m - 1]|)
  }

  /** dx_occ[c] before division: the gather over every occurrence of the cell. */
  function DxOcc(t: Task, v: Vars, c: int): real
    requires Wf(t, v)
  {
    CellSum(t, v, Delta, c, |t.rays|)
  }

  /** pc_x_occ[c]. */
  function PcXOcc(t: Task, v: Vars, c: int): real
    requires Wf(t, v)
  {
    CellSum(t, v, Weight, c, |t.rays|)
  }

  /** dy_occ as the accumulation leaves it. */
  function DyOccs(t: Task, v: Vars): (a: seq<seq<real>>)
    requires Wf(t, v)
    ensures ShapedLike(a, t.rays)
    ensures forall r, p :: 0 <= r < |a| && 0 <= p < |a[r]| ==> a[r][p] == DyOcc(t, v, r, p)
  {
    seq(|t.rays|, r requires 0 <= r < |t.rays| =>
      seq(|t.rays[r]|, p requires 0 <= p < |t.rays[r]| => DyOcc(t, v, r, p)))
  }

  /** dy_free as the accumulation leaves it. */
  function DyFrees(t: Task, v: Vars): (a: seq<seq<real>>)
    requires Wf(t, v)
    ensures ShapedLike(a, t.rays)
    ensures forall r, p :: 0 <= r < |a| && 0 <= p < |a[r]| ==> a[r][p] == DyFree(t, v, r, p)
  {
    seq(|t.rays|, r requires 0 <= r < |t.rays| =>
      seq(|t.rays[r]|, p requires 0 <= p < |t.rays[r]| => DyFree(t, v, r, p)))
  }

  /** pc_y_occ, which depends only on the mode and the shape of the rays. */
  function YOccWeights(t: Task): (a: seq<seq<real>>)
    ensures ShapedLike(a, t.rays)
    ensures forall r, p :: 0 <= r < |a| && 0 <= p < |a[r]| ==> a[r][p] == YOccWeight(t.nonconvex, p)
  {
    seq(|t.rays|, r requires 0 <= r < |t.rays| =>
      seq(|t.rays[r]|, p requires 0 <= p < |t.rays[r]| => YOccWeight(t.nonconvex, p)))
  }

  /** pc_y_free. */
  function YFreeWeights(t: Task, v: Vars): (a: seq<seq<real>>)
    requires Wf(t, v)
    ensures ShapedLike(a, t.rays)
    ensures forall r, p :: 0 <= r < |a| && 0 <= p < |a[r]| ==> a[r][p] == YFreeWeight(t, v, r, p)
  {
    seq(|t.rays|, r requires 0 <= r < |t.rays| =>
      seq(|t.rays[r]|, p requires 0 <= p < |t.rays[r]| => YFreeWeight(t, v, r, p)))
  }

  /** dx_occ as the accumulation leaves it. */
  function DxOccs(t: Task, v: Vars): (a: seq<real>)
    requires Wf(t, v)
    ensures |a| == NumCells(t)
    ensures forall c :: 0 <= c < |a| ==> a[c] == DxOcc(t, v, c)
  {
    seq(NumCells(t), c => DxOcc(t, v, c))
  }

  /** pc_x_occ. */
  function PcXOccs(t: Task, v: Vars): (a: seq<real>)
    requires Wf(t, v)
    ensures |a| == NumCells(t)
    ensures forall c :: 0 <= c < |a| ==> a[c] == PcXOcc(t, v, c)
  {
    seq(NumCells(t), c => PcXOcc(t, v, c))
  }

  function NewYOcc(t: Task, v: Vars, r: nat, p: nat): real
    requires Wf(t, v) && r < |t.rays| && p < |t.rays[r]|
  {
    Descend(v.yOcc[r][p], DyOcc(t, v, r, p), YOccWeight(t.nonconvex, p))
  }

  function NewYFree(t: Task, v: Vars, r: nat, p: nat): real
    requires Wf(t, v) && r < |t.rays| && p < |t.rays[r]|
  {
    Descend(v.yFree[r][p], DyFree(t, v, r, p), YFreeWeight(t, v, r, p))
  }

  function NewXOcc(t: Task, v: Vars, c: nat): real
    requires Wf(t, v) && c < |v.xOcc|
  {
    Descend(v.xOcc[c], DxOcc(t, v, c), PcXOcc(t, v, c))
  }

  /** The clamped, preconditioned descent step applied to every y_occ entry. */
  function NewYOccs(t: Task, v: Vars): (a: seq<seq<real>>)
    requires Wf(t, v)
    ensures ShapedLike(a, t.rays)
    ensures forall r, p :: 0 <= r < |a| && 0 <= p < |a[r]| ==> a[r][p] == NewYOcc(t, v, r, p)
  {
    seq(|t.rays|, r requires 0 <= r < |t.rays| =>
      seq(|t.rays[r]|, p requires 0 <= p < |t.rays[r]| => NewYOcc(t, v, r, p)))
  }

  function NewYFrees(t: Task, v: Vars): (a: seq<seq<real>>)
    requires Wf(t, v)
    ensures ShapedLike(a, t.rays)
    ensures forall r, p :: 0 <= r < |a| && 0 <= p < |a[r]| ==> a[r][p] == NewYFree(t, v, r, p)
  {
    seq(|t.rays|, r requires 0 <= r < |t.rays| =>
      seq(|t.rays[r]|, p requires 0 <= p < |t.rays[r]| => NewYFree(t, v, r, p)))
  }

  function NewXOccs(t: Task, v: Vars): (a: seq<real>)
    requires Wf(t, v)
    ensures |a| == |v.xOcc|
    ensures forall c :: 0 <= c < |a| ==> a[c] == NewXOcc(t, v, c)
  {
    seq(|v.xOcc|, c requires 0 <= c < |v.xOcc| => NewXOcc(t, v, c))
  }

  /**
   * `primal()`: the new primal values, their extrapolations against the values
   * at the start of the pass, and the duals untouched.
   */
  function PrimalPass(t: Task, v: Vars): (w: Vars)
    requires Wf(t, v)
    ensures VarsOk(t, w)
    ensures InUnitBox(w)
    ensures w.dualOccFree == v.dualOccFree && w.dualFreeFree == v.dualFreeFree
    ensures w.dualOccX == v.dualOccX && w.dualFreeX == v.dualFreeX && w.dualVis == v.dualVis
    ensures forall r, p :: 0 <= r < |t.rays| && 0 <= p < |t.rays[r]| ==>
      w.yOcc[r][p] - v.yOcc[r][p] == w.extraYOcc[r][p] - w.yOcc[r][p] &&
      w.yFree[r][p] - v.yFree[r][p] == w.extraYFree[r][p] - w.yFree[r][p]
    ensures forall c :: 0 <= c < |w.xOcc| ==> w.xOcc[c] - v.xOcc[c] == w.extraXOcc[c] - w.xOcc[c]
  {
    var yOcc := NewYOccs(t, v);
    var yFree := NewYFrees(t, v);
    var xOcc := NewXOccs(t, v);
    v.(yOcc := yOcc, yFree := yFree, xOcc := xOcc,
       extraYOcc := ExtrapolatedRagged(yOcc, v.yOcc),
       extraYFree := ExtrapolatedRagged(yFree, v.yFree),
       extraXOcc := Extrapolated(xOcc, v.xOcc))
  }

  /**
   * The code's three passes over the primal values (divide the deltas by the
   * floored weights, subtract, clamp) make up the per-entry descent step.
   */
  lemma DescentComposes(t: Task, v: Vars)
    requires Wf(t, v)
    ensures ClampedRagged(SubtractedRagged(v.yOcc, DividedRagged(DyOccs(t, v), YOccWeights(t))))
            == NewYOccs(t, v)
    ensures ClampedRagged(SubtractedRagged(v.yFree, DividedRagged(DyFrees(t, v), YFreeWeights(t, v))))
            == NewYFrees(t, v)
    ensures Clamped(Subtracted(v.xOcc, Divided(DxOccs(t, v), PcXOccs(t, v)))) == NewXOccs(t, v)
  {
    var occ := ClampedRagged(SubtractedRagged(v.yOcc, DividedRagged(DyOccs(t, v), YOccWeights(t))));
    var free := ClampedRagged(SubtractedRagged(v.yFree, DividedRagged(DyFrees(t, v), YFreeWeights(t, v))));
    forall r | 0 <= r < |t.rays|
      ensures occ[r] == NewYOccs(t, v)[r] && free[r] == NewYFrees(t, v)[r]
    {
    }
  }

  lemma {:induction false} RaySumUnreached(t: Task, v: Vars, k: Tally, c: int, r: nat, n: nat)
    requires Wf(t, v) && r < |t.rays| && n <= |t.rays[r]|
    requires forall p :: 0 <= p < n ==> t.rays[r][p] != c
    ensures RaySum(t, v, k, c, r, n) == 0.0
  {
    if n > 0 {
      RaySumUnreached(t, v, k, c, r, n - 1);
    }
  }

  /** A cell no ray of `rays[..m]` crosses accumulates nothing. */
  lemma {:induction false} CellSumUnreached(t: Task, v: Vars, k: Tally, c: int, m: nat)
    requires Wf(t, v) && m <= |t.rays|
    requires UnreachedBefore(t.rays, c, m)
    ensures CellSum(t, v, k, c, m) == 0.0
  {
    if m > 0 {
      assert UnreachedBefore(t.rays, c, m - 1);
      CellSumUnreached(t, v, k, c, m - 1);
      RaySumUnreached(t, v, k, c, m - 1, |t.rays[m - 1]|);
    }
  }

  lemma {:induction false} RayWeightBounds(t: Task, v: Vars, c: int, r: nat, n: nat)
    requires Wf(t, v) && r < |t.rays| && n <= |t.rays[r]|
    ensures 2.0 * (RayHits(t.rays[r], c, n) as real) <= RaySum(t, v, Weight, c, r, n)
    ensures RaySum(t, v, Weight, c, r, n) <= 3.0 * (RayHits(t.rays[r], c, n) as real)
    ensures !t.nonconvex ==> RaySum(t, v, Weight, c, r, n) == 2.0 * (RayHits(t.rays[r], c, n) as real)
  {
    if n > 0 {
      RayWeightBounds(t, v, c, r, n - 1);
    }
  }

  /**
   * pc_x_occ is fixed by the topology in convex mode, twice the number of
   * occurrences of the cell; the visibility terms add at most one per
   * occurrence in non-convex mode.
   */
  lemma {:induction false} CellWeightBounds(t: Task, v: Vars, c: int, m: nat)
    requires Wf(t, v) && m <= |t.rays|
    ensures 2.0 * (Hits(t.rays, c, m) as real) <= CellSum(t, v, Weight, c, m)
    ensures CellSum(t, v, Weight, c, m) <= 3.0 * (Hits(t.rays, c, m) as real)
    ensures !t.nonconvex ==> CellSum(t, v, Weight, c, m) == 2.0 * (Hits(t.rays, c, m) as real)
  {
    if m > 0 {
      CellWeightBounds(t, v, c, m - 1);
      RayWeightBounds(t, v, c, m - 1, |t.rays[m - 1]|);
    }
  }

  /** Convex mode: pc_x_occ[c] is twice the number of occurrences of c, for every state. */
  lemma ConvexCellWeight(t: Task, v: Vars, c: int)
    requires Wf(t, v) && !t.nonconvex
    ensures PcXOcc(t, v, c) == 2.0 * (Hits(t.rays, c, |t.rays|) as real)
  {
    CellWeightBounds(t, v, c, |t.rays|);
  }

  /**
   * Convex mode: every preconditioner weight of the primal pass depends on
   * the rays alone, not on the state it is computed from.
   */
  lemma ConvexWeightsFixed(t: Task, v: Vars, u: Vars)
    requires Wf(t, v) && Wf(t, u) && !t.nonconvex
    ensures YFreeWeights(t, v) == YFreeWeights(t, u)
    ensures PcXOccs(t, v) == PcXOccs(t, u)
  {
    forall c | 0 <= c < NumCells(t)
      ensures PcXOcc(t, v, c) == PcXOcc(t, u, c)
    {
      ConvexCellWeight(t, v, c);
      ConvexCellWeight(t, u, c);
    }
    forall r | 0 <= r < |t.rays|
      ensures YFreeWeights(t, v)[r] == YFreeWeights(t, u)[r]
    {
    }
  }

  /**
   * A cell that appears in no ray gets a zero delta and a zero weight, which
   * the floor turns into a division by one, so its value does not move.
   */
  lemma UnreachedCellFixed(t: Task, v: Vars, c: nat)
    requires Wf(t, v) && InUnitBox(v) && c < |v.xOcc| && Unreached(t.rays, c)
    ensures DxOcc(t, v, c) == 0.0 && PcXOcc(t, v, c) == 0.0
    ensures NewXOcc(t, v, c) == v.xOcc[c]
  {
    CellSumUnreached(t, v, Delta, c, |t.rays|);
    CellSumUnreached(t, v, Weight, c, |t.rays|);
  }

  /**
   * The converse case: a cell that some ray crosses collects at least two
   * weight terms, so its delta is divided by `pc_x_occ` itself.
   */
  lemma ReachedCellWeight(t: Task, v: Vars, c: int)
    requires Wf(t, v) && !Unreached(t.rays, c)
    ensures PcXOcc(t, v, c) >= 2.0
    ensures MaxOne(PcXOcc(t, v, c)) == PcXOcc(t, v, c)
  {
    HitsZeroIffUnreached(t.rays, c, |t.rays|);
    CellWeightBounds(t, v, c, |t.rays|);
  }

  /** The primal pass keeps every between-steps invariant. */
  lemma PrimalPassPreservesInvariant(t: Task, v: Vars)
    requires Invariant(t, v)
    ensures Invariant(t, PrimalPass(t, v))
  {
    var w := PrimalPass(t, v);
    forall c | 0 <= c < |w.xOcc| && c < |w.extraXOcc| && Unreached(t.rays, c)
      ensures w.xOcc[c] == 0.0 && w.extraXOcc[c] == 0.0
    {
      UnreachedCellFixed(t, v, c);
    }
  }
}
