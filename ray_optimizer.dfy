/**
 * The optimizer object.  The primal occupancies and their extrapolation are
 * arrays created once and updated in place; the per-ray lists, the
 * multipliers and the per-cell scratch lists of the primal pass are `seq`
 * fields that the methods replace.  The ray loops of `primal`, `dual` and
 * `clamp_duals` are methods over the state as a value, rebuilding one ray
 * at a time; the class methods store their results and are proved against
 * the value-level functions of Layout, PrimalSpec and DualSpec.
 */
module Optimizer {
  import opened Numerics
  import opened Layout
  import opened Model
  import opened PrimalSpec
  import opened DualSpec

  /**
   * The ray loop of `primal`, run on the state `v` it reads: fresh zero
   * deltas and weights, then the contribution of every ray.
   */
  method AccumulateRays(t: Task, v: Vars)
    returns (occ: seq<seq<real>>, free: seq<seq<real>>, dx: seq<real>,
             pcOcc: seq<seq<real>>, pcFree: seq<seq<real>>, pc: seq<real>)
    requires Wf(t, v)
    ensures occ == DyOccs(t, v) && free == DyFrees(t, v) && dx == DxOccs(t, v)
    ensures pcOcc == YOccWeights(t) && pcFree == YFreeWeights(t, v) && pc == PcXOccs(t, v)
  {
    var zeros := ZerosAlongRays(t.rays);
    // zero deltas, one per primal value
    occ, free, dx := zeros, zeros, ZerosAllCells(NCells(t));
    // zero weights, the divisors of those deltas
    pcOcc, pcFree, pc := zeros, zeros, ZerosAllCells(NCells(t));
    for rayInd := 0 to |t.rays|
      invariant |occ| == |free| == |pcOcc| == |pcFree| == |t.rays|
      invariant |dx| == |pc| == NumCells(t)
      invariant forall r :: 0 <= r < rayInd ==> RayDone(t, v, r, occ[r], free[r], pcOcc[r], pcFree[r])
      invariant forall c :: 0 <= c < |dx| ==>
        dx[c] == CellSum(t, v, Delta, c, rayInd) && pc[c] == CellSum(t, v, Weight, c, rayInd)
    {
      var occRow, freeRow, pcOccRow, pcFreeRow;
      occRow, freeRow, pcOccRow, pcFreeRow, dx, pc :=
        AccumulateRay(t, v, rayInd, zeros[rayInd], zeros[rayInd], zeros[rayInd], zeros[rayInd], dx, pc);
      occ, free := occ[rayInd := occRow], free[rayInd := freeRow];
      pcOcc, pcFree := pcOcc[rayInd := pcOccRow], pcFree[rayInd := pcFreeRow];
    }
  }

  /** Ray `r` of the four per-ray lists as the ray loop of `primal` leaves it. */
  ghost predicate RayDone(t: Task, v: Vars, r: nat, occ: seq<real>, free: seq<real>, pcOcc: seq<real>, pcFree: seq<real>)
    requires Wf(t, v) && r < |t.rays|
  {
    && occ == DyOccs(t, v)[r] && free == DyFrees(t, v)[r]
    && pcOcc == YOccWeights(t)[r] && pcFree == YFreeWeights(t, v)[r]
  }

  /**
   * One iteration of the ray loop of `primal`: the rows of ray `rayInd`,
   * starting from zero, get the terms of every position, the last one the
   * free-space cost of the ray; the per-cell sums get the terms at each cell.
   */
  method AccumulateRay(t: Task, v: Vars, rayInd: nat, occ0: seq<real>, free0: seq<real>,
                       pcOcc0: seq<real>, pcFree0: seq<real>, dx0: seq<real>, pc0: seq<real>)
    returns (occ: seq<real>, free: seq<real>, pcOcc: seq<real>, pcFree: seq<real>,
             dx: seq<real>, pc: seq<real>)
    requires Wf(t, v) && rayInd < |t.rays|
    requires |occ0| == |free0| == |pcOcc0| == |pcFree0| == |t.rays[rayInd]|
    requires forall q :: 0 <= q < |t.rays[rayInd]| ==> occ0[q] == free0[q] == pcOcc0[q] == pcFree0[q] == 0.0
    requires |dx0| == |pc0| == NumCells(t)
    ensures occ == DyOccs(t, v)[rayInd] && free == DyFrees(t, v)[rayInd]
    ensures pcOcc == YOccWeights(t)[rayInd] && pcFree == YFreeWeights(t, v)[rayInd]
    ensures |dx| == |pc| == NumCells(t)
    ensures forall c :: 0 <= c < |dx| ==>
      && dx[c] == dx0[c] + RaySum(t, v, Delta, c, rayInd, |t.rays[rayInd]|)
      && pc[c] == pc0[c] + RaySum(t, v, Weight, c, rayInd, |t.rays[rayInd]|)
  {
    var ray := t.rays[rayInd];
    occ, free, pcOcc, pcFree, dx, pc := occ0, free0, pcOcc0, pcFree0, dx0, pc0;
    for rayPos := 0 to |ray|
      invariant |occ| == |free| == |pcOcc| == |pcFree| == |ray|
      invariant |dx| == |pc| == NumCells(t)
      invariant forall q :: 0 <= q < |ray| ==>
        && occ[q] == (if q < rayPos then DyOcc(t, v, rayInd, q) else 0.0)
        && pcOcc[q] == (if q < rayPos then YOccWeight(t.nonconvex, q) else 0.0)
        && free[q] == (if q < rayPos then DyFreeOwn(t, v, rayInd, q) else 0.0)
                      - (if q + 1 < rayPos then DyFreeBack(t, v, rayInd, q + 1) else 0.0)
        && pcFree[q] == (if q < rayPos then YFreeOwnWeight(q) else 0.0)
                        + (if q + 1 < rayPos then YFreeBackWeight(t, v, rayInd, q + 1) else 0.0)
      invariant forall c :: 0 <= c < |dx| ==>
        && dx[c] == dx0[c] + RaySum(t, v, Delta, c, rayInd, rayPos)
        && pc[c] == pc0[c] + RaySum(t, v, Weight, c, rayInd, rayPos)
    {
      occ, free, pcOcc, pcFree, dx, pc := AccumulatePosition(t, v, rayInd, rayPos, occ, free, pcOcc, pcFree, dx, pc);
    }
    // the free-space cost of the ray goes to its last position
    free := free[|ray| - 1 := free[|ray| - 1] + t.costsFree[rayInd]];
    assert occ == DyOccs(t, v)[rayInd] && free == DyFrees(t, v)[rayInd];
    assert pcOcc == YOccWeights(t)[rayInd] && pcFree == YFreeWeights(t, v)[rayInd];
  }

  /**
   * The body of the position loop of `primal`: the occupancy cost and the
   * terms of every constraint position `rayPos` of ray `rayInd` takes part in.
   */
  method AccumulatePosition(t: Task, v: Vars, rayInd: nat, rayPos: nat,
                            occ0: seq<real>, free0: seq<real>, pcOcc0: seq<real>, pcFree0: seq<real>,
                            dx0: seq<real>, pc0: seq<real>)
    returns (occ: seq<real>, free: seq<real>, pcOcc: seq<real>, pcFree: seq<real>,
             dx: seq<real>, pc: seq<real>)
    requires Wf(t, v)
    requires rayInd < |t.rays| && rayPos < |t.rays[rayInd]|
    requires |occ0| == |free0| == |pcOcc0| == |pcFree0| == |t.rays[rayInd]|
    requires |dx0| == |pc0| == NumCells(t)
    ensures |occ| == |free| == |pcOcc| == |pcFree| == |t.rays[rayInd]|
    ensures |dx| == |pc| == NumCells(t)
    ensures forall q :: 0 <= q < |t.rays[rayInd]| ==>
      && occ[q] == occ0[q] + (if q == rayPos then DyOcc(t, v, rayInd, q) else 0.0)
      && pcOcc[q] == pcOcc0[q] + (if q == rayPos then YOccWeight(t.nonconvex, q) else 0.0)
      && free[q] == free0[q]
           + (if q == rayPos then DyFreeOwn(t, v, rayInd, q) else 0.0)
           - (if q + 1 == rayPos then DyFreeBack(t, v, rayInd, rayPos) else 0.0)
      && pcFree[q] == pcFree0[q]
           + (if q == rayPos then YFreeOwnWeight(q) else 0.0)
           + (if q + 1 == rayPos then YFreeBackWeight(t, v, rayInd, rayPos) else 0.0)
    ensures forall c :: 0 <= c < |dx| ==>
      && dx[c] == dx0[c] + (if c == t.rays[rayInd][rayPos] then CellTerm(t, v, Delta, rayInd, rayPos) else 0.0)
      && pc[c] == pc0[c] + (if c == t.rays[rayInd][rayPos] then CellTerm(t, v, Weight, rayInd, rayPos) else 0.0)
  {
    var cell := t.rays[rayInd][rayPos];
    occ, free, pcOcc, pcFree, dx, pc := occ0, free0, pcOcc0, pcFree0, dx0, pc0;
    // occupancy cost of the position
    occ := occ[rayPos := occ[rayPos] + t.costsOcc[rayInd][rayPos]];
    if rayPos >= 1 {
      // chain constraint between y_occ[p] and y_free[p - 1]
      occ := occ[rayPos := occ[rayPos] + v.dualOccFree[rayInd][rayPos]];
      pcOcc := pcOcc[rayPos := pcOcc[rayPos] + 1.0];
      free := free[rayPos - 1 := free[rayPos - 1] - v.dualOccFree[rayInd][rayPos]];
      pcFree := pcFree[rayPos - 1 := pcFree[rayPos - 1] + 1.0];
      // chain constraint between y_free[p] and y_free[p - 1]
      free := free[rayPos := free[rayPos] + v.dualFreeFree[rayInd][rayPos]];
      pcFree := pcFree[rayPos := pcFree[rayPos] + 1.0];
      free := free[rayPos - 1 := free[rayPos - 1] - v.dualFreeFree[rayInd][rayPos]];
      pcFree := pcFree[rayPos - 1 := pcFree[rayPos - 1] + 1.0];
      // the max(0, .) bound on y_occ[p]; predecessor and cell terms only on its linear branch
      if t.nonconvex {
        var linearBranch := v.yFree[rayInd][rayPos - 1] + v.xOcc[cell] - 1.0;
        occ := occ[rayPos := occ[rayPos] + v.dualVis.value[rayInd][rayPos]];
        pcOcc := pcOcc[rayPos := pcOcc[rayPos] + 1.0];
        if linearBranch > 0.0 {
          free := free[rayPos - 1 := free[rayPos - 1] - v.dualVis.value[rayInd][rayPos]];
          pcFree := pcFree[rayPos - 1 := pcFree[rayPos - 1] + 1.0];
          dx := dx[cell := dx[cell] - v.dualVis.value[rayInd][rayPos]];
          pc := pc[cell := pc[cell] + 1.0];
        }
      }
    }
    // co-location constraint between y_occ[p] and the cell's x_occ
    occ := occ[rayPos := occ[rayPos] + v.dualOccX[rayInd][rayPos]];
    pcOcc := pcOcc[rayPos := pcOcc[rayPos] + 1.0];
    dx := dx[cell := dx[cell] - v.dualOccX[rayInd][rayPos]];
    pc := pc[cell := pc[cell] + 1.0];
    // co-location constraint between y_free[p] and the cell's x_occ
    free := free[rayPos := free[rayPos] + v.dualFreeX[rayInd][rayPos]];
    pcFree := pcFree[rayPos := pcFree[rayPos] + 1.0];
    dx := dx[cell := dx[cell] + v.dualFreeX[rayInd][rayPos]];
    pc := pc[cell := pc[cell] + 1.0];
  }

  /**
   * The ray loop of `dual`, run on the state `v` it reads: every multiplier
   * after its ascent step, before `clamp_duals`.
   */
  method AscendDuals(t: Task, v: Vars)
    returns (occFree: seq<seq<real>>, freeFree: seq<seq<real>>, occX: seq<seq<real>>,
             freeX: seq<seq<real>>, vis: Option<seq<seq<real>>>)
    requires Wf(t, v)
    ensures occFree == RawDuals(t, v, OccFree) && freeFree == RawDuals(t, v, FreeFree)
    ensures occX == RawDuals(t, v, OccX) && freeX == RawDuals(t, v, FreeX)
    ensures vis == if t.nonconvex then Some(RawDuals(t, v, Vis)) else None
  {
    occFree, freeFree, occX, freeX := v.dualOccFree, v.dualFreeFree, v.dualOccX, v.dualFreeX;
    var visAll := if t.nonconvex then v.dualVis.value else [];
    for rayInd := 0 to |t.rays|
      invariant |occFree| == |freeFree| == |occX| == |freeX| == |t.rays|
      invariant t.nonconvex ==> |visAll| == |t.rays|
      invariant forall r :: 0 <= r < rayInd ==>
        && occFree[r] == RawDuals(t, v, OccFree)[r] && freeFree[r] == RawDuals(t, v, FreeFree)[r]
        && occX[r] == RawDuals(t, v, OccX)[r] && freeX[r] == RawDuals(t, v, FreeX)[r]
        && (t.nonconvex ==> visAll[r] == RawDuals(t, v, Vis)[r])
    {
      var occFreeRow, freeFreeRow, occXRow, freeXRow, visRow := DualRay(t, v, rayInd);
      occFree, freeFree := occFree[rayInd := occFreeRow], freeFree[rayInd := freeFreeRow];
      occX, freeX := occX[rayInd := occXRow], freeX[rayInd := freeXRow];
      if t.nonconvex {
        visAll := visAll[rayInd := visRow];
      }
    }
    assert t.nonconvex ==> visAll == RawDuals(t, v, Vis);
    vis := if t.nonconvex then Some(visAll) else None;
  }

  /**
   * One iteration of the ray loop of `dual`: the rows of ray `rayInd` of the
   * four dual families and, in non-convex mode, of the visibility one.
   */
  method DualRay(t: Task, v: Vars, rayInd: nat)
    returns (occFree: seq<real>, freeFree: seq<real>, occX: seq<real>, freeX: seq<real>, vis: seq<real>)
    requires Wf(t, v) && rayInd < |t.rays|
    ensures occFree == RawDuals(t, v, OccFree)[rayInd] && freeFree == RawDuals(t, v, FreeFree)[rayInd]
    ensures occX == RawDuals(t, v, OccX)[rayInd] && freeX == RawDuals(t, v, FreeX)[rayInd]
    ensures t.nonconvex ==> vis == RawDuals(t, v, Vis)[rayInd]
  {
    var ray := t.rays[rayInd];
    occFree, freeFree := v.dualOccFree[rayInd], v.dualFreeFree[rayInd];
    occX, freeX := v.dualOccX[rayInd], v.dualFreeX[rayInd];
    vis := if t.nonconvex then v.dualVis.value[rayInd] else [];
    for rayPos := 0 to |ray|
      invariant |occFree| == |freeFree| == |occX| == |freeX| == |ray|
      invariant t.nonconvex ==> |vis| == |ray|
      invariant forall q :: 0 <= q < |ray| ==>
        && occFree[q] == (if q < rayPos then RawOccFree(t, v, rayInd, q) else v.dualOccFree[rayInd][q])
        && freeFree[q] == (if q < rayPos then RawFreeFree(t, v, rayInd, q) else v.dualFreeFree[rayInd][q])
        && occX[q] == (if q < rayPos then RawOccX(t, v, rayInd, q) else v.dualOccX[rayInd][q])
        && freeX[q] == (if q < rayPos then RawFreeX(t, v, rayInd, q) else v.dualFreeX[rayInd][q])
        && (t.nonconvex ==> vis[q] == (if q < rayPos then RawVis(t, v, rayInd, q) else v.dualVis.value[rayInd][q]))
    {
      occFree, freeFree, occX, freeX, vis := DualPosition(t, v, rayInd, rayPos, occFree, freeFree, occX, freeX, vis);
    }
    assert occFree == RawDuals(t, v, OccFree)[rayInd] && freeFree == RawDuals(t, v, FreeFree)[rayInd];
    assert occX == RawDuals(t, v, OccX)[rayInd] && freeX == RawDuals(t, v, FreeX)[rayInd];
    assert t.nonconvex ==> vis == RawDuals(t, v, Vis)[rayInd];
  }

  /**
   * The body of the position loop of `dual`: the multipliers of the
   * constraints at position `rayPos` of ray `rayInd` take their ascent step.
   */
  method DualPosition(t: Task, v: Vars, rayInd: nat, rayPos: nat,
                      occFree0: seq<real>, freeFree0: seq<real>, occX0: seq<real>, freeX0: seq<real>,
                      vis0: seq<real>)
    returns (occFree: seq<real>, freeFree: seq<real>, occX: seq<real>, freeX: seq<real>, vis: seq<real>)
    requires Wf(t, v)
    requires rayInd < |t.rays| && rayPos < |t.rays[rayInd]|
    requires |occFree0| == |freeFree0| == |occX0| == |freeX0| == |t.rays[rayInd]|
    requires t.nonconvex ==> |vis0| == |t.rays[rayInd]|
    requires occFree0[rayPos] == v.dualOccFree[rayInd][rayPos] && freeFree0[rayPos] == v.dualFreeFree[rayInd][rayPos]
    requires occX0[rayPos] == v.dualOccX[rayInd][rayPos] && freeX0[rayPos] == v.dualFreeX[rayInd][rayPos]
    requires t.nonconvex ==> vis0[rayPos] == v.dualVis.value[rayInd][rayPos]
    ensures |occFree| == |freeFree| == |occX| == |freeX| == |t.rays[rayInd]|
    ensures t.nonconvex ==> |vis| == |t.rays[rayInd]|
    ensures occFree == occFree0[rayPos := RawOccFree(t, v, rayInd, rayPos)]
    ensures freeFree == freeFree0[rayPos := RawFreeFree(t, v, rayInd, rayPos)]
    ensures occX == occX0[rayPos := RawOccX(t, v, rayInd, rayPos)]
    ensures freeX == freeX0[rayPos := RawFreeX(t, v, rayInd, rayPos)]
    ensures t.nonconvex ==> vis == vis0[rayPos := RawVis(t, v, rayInd, rayPos)]
  {
    var ray := t.rays[rayInd];
    occFree, freeFree, occX, freeX, vis := occFree0, freeFree0, occX0, freeX0, vis0;
    var cell := ray[rayPos];
    if rayPos >= 1 {
      occFree := occFree[rayPos := occFree[rayPos]
        + (v.extraYOcc[rayInd][rayPos] - v.extraYFree[rayInd][rayPos - 1]) / 2.0];
      freeFree := freeFree[rayPos := freeFree[rayPos]
        + (v.extraYFree[rayInd][rayPos] - v.extraYFree[rayInd][rayPos - 1]) / 2.0];
      // the max(0, .) bound: a look-ahead residual on the linear branch, y_occ alone otherwise
      if t.nonconvex {
        var linearBranch := v.yFree[rayInd][rayPos - 1] + v.xOcc[cell] - 1.0;
        if linearBranch > 0.0 {
          vis := vis[rayPos := vis[rayPos]
            + (v.extraYOcc[rayInd][rayPos] - v.extraYFree[rayInd][rayPos - 1] - v.extraXOcc[cell] + 1.0) / 3.0];
        } else {
          vis := vis[rayPos := vis[rayPos] + v.extraYOcc[rayInd][rayPos]];
        }
      }
    }
    occX := occX[rayPos := occX[rayPos] + (v.extraYOcc[rayInd][rayPos] - v.extraXOcc[cell]) / 2.0];
    freeX := freeX[rayPos := freeX[rayPos] + (v.extraYFree[rayInd][rayPos] + v.extraXOcc[cell] - 1.0) / 2.0];
  }

  /**
   * One iteration of the ray loop of `clamp_duals`: every multiplier of the
   * ray, and the visibility multiplier in non-convex mode, floored at zero.
   */
  method ClampDualRow(nonconvex: bool, occFree0: seq<real>, freeFree0: seq<real>,
                      occX0: seq<real>, freeX0: seq<real>, vis0: seq<real>)
    returns (occFree: seq<real>, freeFree: seq<real>, occX: seq<real>, freeX: seq<real>, vis: seq<real>)
    requires |freeFree0| == |occX0| == |freeX0| == |occFree0|
    requires nonconvex ==> |vis0| == |occFree0|
    ensures occFree == ClampedNonneg(occFree0) && freeFree == ClampedNonneg(freeFree0)
    ensures occX == ClampedNonneg(occX0) && freeX == ClampedNonneg(freeX0)
    ensures vis == if nonconvex then ClampedNonneg(vis0) else vis0
  {
    occFree, freeFree, occX, freeX, vis := occFree0, freeFree0, occX0, freeX0, vis0;
    for rayPos := 0 to |occFree0|
      invariant |occFree| == |freeFree| == |occX| == |freeX| == |occFree0|
      invariant |vis| == |vis0|
      invariant forall p :: 0 <= p < |occFree0| ==>
        && occFree[p] == (if p < rayPos then ClampNonneg(occFree0[p]) else occFree0[p])
        && freeFree[p] == (if p < rayPos then ClampNonneg(freeFree0[p]) else freeFree0[p])
        && occX[p] == (if p < rayPos then ClampNonneg(occX0[p]) else occX0[p])
        && freeX[p] == (if p < rayPos then ClampNonneg(freeX0[p]) else freeX0[p])
      invariant forall p :: 0 <= p < |vis0| ==>
        vis[p] == (if nonconvex && p < rayPos then ClampNonneg(vis0[p]) else vis0[p])
    {
      occFree := occFree[rayPos := ClampNonneg(occFree[rayPos])];
      freeFree := freeFree[rayPos := ClampNonneg(freeFree[rayPos])];
      occX := occX[rayPos := ClampNonneg(occX[rayPos])];
      freeX := freeX[rayPos := ClampNonneg(freeX[rayPos])];
      if nonconvex {
        vis := vis[rayPos := ClampNonneg(vis[rayPos])];
      }
    }
  }

  /** The ray loop of `clamp_duals`, run on the state `v`. */
  method ClampDualRays(t: Task, v: Vars) returns (w: Vars)
    requires Wf(t, v)
    ensures w == ClampedDuals(t, v)
  {
    var occFree, freeFree, occX, freeX := v.dualOccFree, v.dualFreeFree, v.dualOccX, v.dualFreeX;
    var vis := if t.nonconvex then v.dualVis.value else [];
    for rayInd := 0 to |t.rays|
      invariant |occFree| == |freeFree| == |occX| == |freeX| == |t.rays|
      invariant t.nonconvex ==> |vis| == |t.rays|
      invariant forall r :: 0 <= r < rayInd ==>
        && occFree[r] == ClampedNonneg(v.dualOccFree[r]) && freeFree[r] == ClampedNonneg(v.dualFreeFree[r])
        && occX[r] == ClampedNonneg(v.dualOccX[r]) && freeX[r] == ClampedNonneg(v.dualFreeX[r])
        && (t.nonconvex ==> vis[r] == ClampedNonneg(v.dualVis.value[r]))
      invariant forall r :: rayInd <= r < |t.rays| ==>
        && occFree[r] == v.dualOccFree[r] && freeFree[r] == v.dualFreeFree[r]
        && occX[r] == v.dualOccX[r] && freeX[r] == v.dualFreeX[r]
        && (t.nonconvex ==> vis[r] == v.dualVis.value[r])
    {
      var occFreeRow, freeFreeRow, occXRow, freeXRow, visRow := ClampDualRow(t.nonconvex,
        occFree[rayInd], freeFree[rayInd], occX[rayInd], freeX[rayInd], if t.nonconvex then vis[rayInd] else []);
      occFree, freeFree := occFree[rayInd := occFreeRow], freeFree[rayInd := freeFreeRow];
      occX, freeX := occX[rayInd := occXRow], freeX[rayInd := freeXRow];
      if t.nonconvex {
        vis := vis[rayInd := visRow];
      }
    }
    assert occFree == ClampedNonnegRagged(v.dualOccFree) && freeFree == ClampedNonnegRagged(v.dualFreeFree);
    assert occX == ClampedNonnegRagged(v.dualOccX) && freeX == ClampedNonnegRagged(v.dualFreeX);
    assert t.nonconvex ==> vis == ClampedNonnegRagged(v.dualVis.value);
    w := v.(dualOccFree := occFree, dualFreeFree := freeFree, dualOccX := occX, dualFreeX := freeX,
            dualVis := if t.nonconvex then Some(vis) else None);
  }

  /** The scratch lists of the primal pass as a value. */
  datatype Scratch = Scratch(
    prevYOcc: seq<seq<real>>, prevYFree: seq<seq<real>>, prevXOcc: seq<real>,
    dyOcc: seq<seq<real>>, dyFree: seq<seq<real>>, dxOcc: seq<real>,
    pcYOcc: seq<seq<real>>, pcYFree: seq<seq<real>>, pcXOcc: seq<real>)

  /** Every scratch list has the shape of the rays or one entry per cell. */
  ghost predicate ScratchOk(t: Task, w: Scratch) {
    && ShapedLike(w.prevYOcc, t.rays) && ShapedLike(w.prevYFree, t.rays) && |w.prevXOcc| == NumCells(t)
    && ShapedLike(w.dyOcc, t.rays) && ShapedLike(w.dyFree, t.rays) && |w.dxOcc| == NumCells(t)
    && ShapedLike(w.pcYOcc, t.rays) && ShapedLike(w.pcYFree, t.rays) && |w.pcXOcc| == NumCells(t)
  }

  /**
   * What a primal pass from `v` leaves behind besides the new primal values:
   * the backed-up values, the divided deltas and the weights.
   */
  function PrimalWork(t: Task, v: Vars): (w: Scratch)
    requires Wf(t, v)
    ensures ScratchOk(t, w)
    ensures w.prevYOcc == v.yOcc && w.prevYFree == v.yFree && w.prevXOcc == v.xOcc
    ensures forall r, p :: 0 <= r < |t.rays| && 0 <= p < |t.rays[r]| ==>
      && w.pcYOcc[r][p] == YOccWeight(t.nonconvex, p) && w.dyOcc[r][p] == DyOcc(t, v, r, p) / MaxOne(w.pcYOcc[r][p])
      && w.pcYFree[r][p] == YFreeWeight(t, v, r, p) && w.dyFree[r][p] == DyFree(t, v, r, p) / MaxOne(w.pcYFree[r][p])
    ensures forall c :: 0 <= c < NumCells(t) ==>
      w.pcXOcc[c] == PcXOcc(t, v, c) && w.dxOcc[c] == DxOcc(t, v, c) / MaxOne(w.pcXOcc[c])
  {
    Scratch(v.yOcc, v.yFree, v.xOcc,
            DividedRagged(DyOccs(t, v), YOccWeights(t)),
            DividedRagged(DyFrees(t, v), YFreeWeights(t, v)),
            Divided(DxOccs(t, v), PcXOccs(t, v)),
            YOccWeights(t), YFreeWeights(t, v), PcXOccs(t, v))
  }

  class RayOptimizer {
    const gridSizes: seq<int>
    const nCells: int
    const rays: seq<seq<int>>
    const rayCostsOcc: seq<seq<real>>
    const rayCostsFree: seq<real>
    const nonconvex: bool

    // indicators along the rays; the cell occupancies are one array, created once and updated in place
    var yOcc: seq<seq<real>>
    var yFree: seq<seq<real>>
    const xOcc: array<real>
    // look-ahead point the dual pass is evaluated at
    var extraYOcc: seq<seq<real>>
    var extraYFree: seq<seq<real>>
    const extraXOcc: array<real>
    // indicators and occupancies as they were at the start of the last primal pass
    var prevYOcc: seq<seq<real>>
    var prevYFree: seq<seq<real>>
    var prevXOcc: seq<real>
    // one multiplier per constraint; dualVisCon holds the max(0, .) bounds, in non-convex mode only
    var dualYOccYFree: seq<seq<real>>
    var dualYFreeYFree: seq<seq<real>>
    var dualYOccXOcc: seq<seq<real>>
    var dualYFreeXOcc: seq<seq<real>>
    var dualVisCon: Option<seq<seq<real>>>
    // deltas and preconditioners of the last primal pass
    var dyOcc: seq<seq<real>>
    var dyFree: seq<seq<real>>
    var dxOcc: seq<real>
    var pcYOcc: seq<seq<real>>
    var pcYFree: seq<seq<real>>
    var pcXOcc: seq<real>

    function Input(): Task {
      Task(gridSizes, rays, rayCostsOcc, rayCostsFree, nonconvex)
    }

    /** The persistent state as a value. */
    function Abstract(): Vars
      reads this`yOcc, this`yFree, this`extraYOcc, this`extraYFree
      reads this`dualYOccYFree, this`dualYFreeYFree, this`dualYOccXOcc, this`dualYFreeXOcc, this`dualVisCon
      reads xOcc, extraXOcc
    {
      Vars(yOcc, yFree, xOcc[..], extraYOcc, extraYFree, extraXOcc[..],
           dualYOccYFree, dualYFreeYFree, dualYOccXOcc, dualYFreeXOcc, dualVisCon)
    }

    /** The scratch lists as a value. */
    function Work(): Scratch
      reads this`prevYOcc, this`prevYFree, this`prevXOcc, this`dyOcc, this`dyFree, this`dxOcc
      reads this`pcYOcc, this`pcYFree, this`pcXOcc
    {
      Scratch(prevYOcc, prevYFree, prevXOcc, dyOcc, dyFree, dxOcc, pcYOcc, pcYFree, pcXOcc)
    }

    /** Shapes of all lists and arrays; holds at every point of every method. */
    ghost predicate Shaped()
      reads this, xOcc, extraXOcc
    {
      && TaskOk(Input())
      && nCells == NCells(Input())
      && VarsOk(Input(), Abstract())
      && ScratchOk(Input(), Work())
      && xOcc != extraXOcc
    }

    ghost predicate Valid()
      reads this, xOcc, extraXOcc
    {
      Shaped() && Invariant(Input(), Abstract())
    }

    /** `__init__` and `init_variables`. */
    constructor (gridSizes: seq<int>, rays: seq<seq<int>>, rayCostsOcc: seq<seq<real>>,
                 rayCostsFree: seq<real>, nonconvex: bool)
      requires TaskOk(Task(gridSizes, rays, rayCostsOcc, rayCostsFree, nonconvex))
      ensures Valid()
      ensures Input() == Task(gridSizes, rays, rayCostsOcc, rayCostsFree, nonconvex)
      ensures nCells == Product(gridSizes)
      ensures Abstract() == Init(Input())
      ensures fresh(xOcc) && fresh(extraXOcc)
    {
      this.gridSizes := gridSizes;
      this.nCells := Product(gridSizes);
      this.rays := rays;
      this.rayCostsOcc := rayCostsOcc;
      this.rayCostsFree := rayCostsFree;
      this.nonconvex := nonconvex;
      // indicators start as an empty grid seen through every ray
      yOcc := ZerosAlongRays(rays);
      yFree := OnesAlongRays(rays);
      var x := FromSeq(ZerosAllCells(Product(gridSizes)));
      xOcc := x;
      // the look-ahead point starts at the primal point
      extraYOcc := yOcc;
      extraYFree := yFree;
      var ex := FromSeq(x[..]);
      extraXOcc := ex;
      // one zero multiplier per constraint of every family
      dualYOccYFree := ZerosAlongRays(rays);
      dualYFreeYFree := ZerosAlongRays(rays);
      dualYOccXOcc := ZerosAlongRays(rays);
      dualYFreeXOcc := ZerosAlongRays(rays);
      // and one per max(0, .) bound, in non-convex mode only
      dualVisCon := if nonconvex then Some(ZerosAlongRays(rays)) else None;
      // scratch lists of the primal pass, created by it in every step
      prevYOcc := yOcc;
      prevYFree := yFree;
      prevXOcc := x[..];
      dyOcc := ZerosAlongRays(rays);
      dyFree := ZerosAlongRays(rays);
      dxOcc := ZerosAllCells(Product(gridSizes));
      pcYOcc := ZerosAlongRays(rays);
      pcYFree := ZerosAlongRays(rays);
      pcXOcc := ZerosAllCells(Product(gridSizes));
      new;
      assert Abstract() == Init(Input());
    }

    /** `step`: one primal pass, then one dual pass. */
    method Step()
      requires Valid()
      modifies this, xOcc, extraXOcc
      ensures Valid()
      ensures Abstract() == StepFn(Input(), old(Abstract()))
      ensures Work() == PrimalWork(Input(), old(Abstract()))
    {
      Primal();
      Dual();
    }

    /**
     * `primal`: accumulate every delta and preconditioner weight from the
     * current duals, divide, back up, descend, clamp and extrapolate.
     */
    method Primal()
      requires Valid()
      modifies this, xOcc, extraXOcc
      ensures Valid()
      ensures Abstract() == PrimalPass(Input(), old(Abstract()))
      ensures Work() == PrimalWork(Input(), old(Abstract()))
    {
      var t, v := Input(), Abstract();
      AccumulateDeltas();
      DivideDeltasByPreconditioners();
      BackupPrimal();
      UpdatePrimalByDeltas();
      ClampPrimal();
      ComputeExtraPrimal();
      DescentComposes(t, v);
      PrimalPassPreservesInvariant(t, v);
    }

    /**
     * The ray loop of `primal`: fresh deltas for the primal variables and
     * the preconditioners they are divided by, from the current state.
     */
    method AccumulateDeltas()
      requires Shaped()
      modifies this`dyOcc, this`dyFree, this`dxOcc, this`pcYOcc, this`pcYFree, this`pcXOcc
      ensures ScratchOk(Input(), Work())
      ensures var t, v := Input(), old(Abstract());
        Work() == old(Work()).(dyOcc := DyOccs(t, v), dyFree := DyFrees(t, v), dxOcc := DxOccs(t, v),
                               pcYOcc := YOccWeights(t), pcYFree := YFreeWeights(t, v), pcXOcc := PcXOccs(t, v))
    {
      dyOcc, dyFree, dxOcc, pcYOcc, pcYFree, pcXOcc := AccumulateRays(Input(), Abstract());
    }

    /** `divide_deltas_by_preconditioners`: every delta over `max(1, weight)`. */
    method DivideDeltasByPreconditioners()
      requires Shaped()
      modifies this`dyOcc, this`dyFree, this`dxOcc
      ensures ScratchOk(Input(), Work())
      ensures var w := old(Work());
        Work() == w.(dyOcc := DividedRagged(w.dyOcc, w.pcYOcc), dyFree := DividedRagged(w.dyFree, w.pcYFree),
                     dxOcc := Divided(w.dxOcc, w.pcXOcc))
    {
      var occ, free := dyOcc, dyFree;
      for rayInd := 0 to |rays|
        invariant |occ| == |free| == |rays|
        invariant forall r :: 0 <= r < rayInd ==>
          occ[r] == Divided(dyOcc[r], pcYOcc[r]) && free[r] == Divided(dyFree[r], pcYFree[r])
        invariant forall r :: rayInd <= r < |rays| ==> occ[r] == dyOcc[r] && free[r] == dyFree[r]
      {
        var occRow, freeRow := occ[rayInd], free[rayInd];
        for rayPos := 0 to |rays[rayInd]|
          invariant |occRow| == |freeRow| == |rays[rayInd]|
          invariant forall p :: 0 <= p < |occRow| ==>
            && occRow[p] == (if p < rayPos then dyOcc[rayInd][p] / MaxOne(pcYOcc[rayInd][p]) else dyOcc[rayInd][p])
            && freeRow[p] == (if p < rayPos then dyFree[rayInd][p] / MaxOne(pcYFree[rayInd][p]) else dyFree[rayInd][p])
        {
          occRow := occRow[rayPos := occRow[rayPos] / MaxOne(pcYOcc[rayInd][rayPos])];
          freeRow := freeRow[rayPos := freeRow[rayPos] / MaxOne(pcYFree[rayInd][rayPos])];
        }
        assert occRow == Divided(dyOcc[rayInd], pcYOcc[rayInd]);
        assert freeRow == Divided(dyFree[rayInd], pcYFree[rayInd]);
        occ, free := occ[rayInd := occRow], free[rayInd := freeRow];
      }
      assert occ == DividedRagged(dyOcc, pcYOcc) && free == DividedRagged(dyFree, pcYFree);
      var dx := dxOcc;
      for cell := 0 to NonNeg(nCells)
        invariant |dx| == |dxOcc|
        invariant forall c :: 0 <= c < |dx| ==>
          dx[c] == (if c < cell then dxOcc[c] / MaxOne(pcXOcc[c]) else dxOcc[c])
      {
        dx := dx[cell := dx[cell] / MaxOne(pcXOcc[cell])];
      }
      assert dx == Divided(dxOcc, pcXOcc);
      dyOcc, dyFree, dxOcc := occ, free, dx;
    }

    /** `backup_primal`: copies of the primal values as `prev_*`. */
    method BackupPrimal()
      requires Shaped()
      modifies this`prevYOcc, this`prevYFree, this`prevXOcc
      ensures ScratchOk(Input(), Work())
      ensures var v := old(Abstract());
        Work() == old(Work()).(prevYOcc := v.yOcc, prevYFree := v.yFree, prevXOcc := v.xOcc)
    {
      prevYOcc := yOcc;
      prevYFree := yFree;
      prevXOcc := xOcc[..];
    }

    /** `update_primal_by_deltas`: subtract every (divided) delta. */
    method UpdatePrimalByDeltas()
      requires Shaped()
      modifies this`yOcc, this`yFree, xOcc
      ensures VarsOk(Input(), Abstract())
      ensures var v, w := old(Abstract()), old(Work());
        Abstract() == v.(yOcc := SubtractedRagged(v.yOcc, w.dyOcc), yFree := SubtractedRagged(v.yFree, w.dyFree),
                         xOcc := Subtracted(v.xOcc, w.dxOcc))
    {
      var occ, free := yOcc, yFree;
      for rayInd := 0 to |rays|
        invariant |occ| == |free| == |rays|
        invariant forall r :: 0 <= r < rayInd ==>
          occ[r] == Subtracted(yOcc[r], dyOcc[r]) && free[r] == Subtracted(yFree[r], dyFree[r])
        invariant forall r :: rayInd <= r < |rays| ==> occ[r] == yOcc[r] && free[r] == yFree[r]
      {
        var occRow, freeRow := occ[rayInd], free[rayInd];
        for rayPos := 0 to |rays[rayInd]|
          invariant |occRow| == |freeRow| == |rays[rayInd]|
          invariant forall p :: 0 <= p < |occRow| ==>
            && occRow[p] == (if p < rayPos then yOcc[rayInd][p] - dyOcc[rayInd][p] else yOcc[rayInd][p])
            && freeRow[p] == (if p < rayPos then yFree[rayInd][p] - dyFree[rayInd][p] else yFree[rayInd][p])
        {
          occRow := occRow[rayPos := occRow[rayPos] - dyOcc[rayInd][rayPos]];
          freeRow := freeRow[rayPos := freeRow[rayPos] - dyFree[rayInd][rayPos]];
        }
        assert occRow == Subtracted(yOcc[rayInd], dyOcc[rayInd]);
        assert freeRow == Subtracted(yFree[rayInd], dyFree[rayInd]);
        occ, free := occ[rayInd := occRow], free[rayInd := freeRow];
      }
      assert occ == SubtractedRagged(yOcc, dyOcc) && free == SubtractedRagged(yFree, dyFree);
      yOcc, yFree := occ, free;
      for cell := 0 to NonNeg(nCells)
        modifies xOcc
        invariant forall c :: 0 <= c < xOcc.Length ==>
          xOcc[c] == (if c < cell then old(xOcc[c]) - dxOcc[c] else old(xOcc[c]))
      {
        xOcc[cell] := xOcc[cell] - dxOcc[cell];
      }
      assert xOcc[..] == Subtracted(old(xOcc[..]), dxOcc);
    }

    /** `clamp_primal`: project every primal value onto [0, 1]. */
    method ClampPrimal()
      requires Shaped()
      modifies this`yOcc, this`yFree, xOcc
      ensures VarsOk(Input(), Abstract())
      ensures var v := old(Abstract());
        Abstract() == v.(yOcc := ClampedRagged(v.yOcc), yFree := ClampedRagged(v.yFree), xOcc := Clamped(v.xOcc))
    {
      var occ, free := yOcc, yFree;
      for rayInd := 0 to |rays|
        invariant |occ| == |free| == |rays|
        invariant forall r :: 0 <= r < rayInd ==> occ[r] == Clamped(yOcc[r]) && free[r] == Clamped(yFree[r])
        invariant forall r :: rayInd <= r < |rays| ==> occ[r] == yOcc[r] && free[r] == yFree[r]
      {
        var occRow, freeRow := occ[rayInd], free[rayInd];
        for rayPos := 0 to |rays[rayInd]|
          invariant |occRow| == |freeRow| == |rays[rayInd]|
          invariant forall p :: 0 <= p < |occRow| ==>
            && occRow[p] == (if p < rayPos then Clamp01(yOcc[rayInd][p]) else yOcc[rayInd][p])
            && freeRow[p] == (if p < rayPos then Clamp01(yFree[rayInd][p]) else yFree[rayInd][p])
        {
          occRow := occRow[rayPos := Clamp01(occRow[rayPos])];
          freeRow := freeRow[rayPos := Clamp01(freeRow[rayPos])];
        }
        assert occRow == Clamped(yOcc[rayInd]) && freeRow == Clamped(yFree[rayInd]);
        occ, free := occ[rayInd := occRow], free[rayInd := freeRow];
      }
      assert occ == ClampedRagged(yOcc) && free == ClampedRagged(yFree);
      yOcc, yFree := occ, free;
      for cell := 0 to NonNeg(nCells)
        modifies xOcc
        invariant forall c :: 0 <= c < xOcc.Length ==>
          xOcc[c] == (if c < cell then Clamp01(old(xOcc[c])) else old(xOcc[c]))
      {
        xOcc[cell] := Clamp01(xOcc[cell]);
      }
      assert xOcc[..] == Clamped(old(xOcc[..]));
    }

    /** `compute_extra_primal`: `2 * new - prev` for every primal value. */
    method ComputeExtraPrimal()
      requires Shaped()
      modifies this`extraYOcc, this`extraYFree, extraXOcc
      ensures VarsOk(Input(), Abstract())
      ensures var v, w := old(Abstract()), old(Work());
        Abstract() == v.(extraYOcc := ExtrapolatedRagged(v.yOcc, w.prevYOcc),
                         extraYFree := ExtrapolatedRagged(v.yFree, w.prevYFree),
                         extraXOcc := Extrapolated(v.xOcc, w.prevXOcc))
    {
      var occ, free := extraYOcc, extraYFree;
      for rayInd := 0 to |rays|
        invariant |occ| == |free| == |rays|
        invariant forall r :: 0 <= r < rayInd ==>
          occ[r] == Extrapolated(yOcc[r], prevYOcc[r]) && free[r] == Extrapolated(yFree[r], prevYFree[r])
        invariant forall r :: rayInd <= r < |rays| ==> occ[r] == extraYOcc[r] && free[r] == extraYFree[r]
      {
        var occRow, freeRow := occ[rayInd], free[rayInd];
        for rayPos := 0 to |rays[rayInd]|
          invariant |occRow| == |freeRow| == |rays[rayInd]|
          invariant forall p :: 0 <= p < rayPos ==>
            && occRow[p] == Extrapolate(yOcc[rayInd][p], prevYOcc[rayInd][p])
            && freeRow[p] == Extrapolate(yFree[rayInd][p], prevYFree[rayInd][p])
        {
          occRow := occRow[rayPos := Extrapolate(yOcc[rayInd][rayPos], prevYOcc[rayInd][rayPos])];
          freeRow := freeRow[rayPos := Extrapolate(yFree[rayInd][rayPos], prevYFree[rayInd][rayPos])];
        }
        assert occRow == Extrapolated(yOcc[rayInd], prevYOcc[rayInd]);
        assert freeRow == Extrapolated(yFree[rayInd], prevYFree[rayInd]);
        occ, free := occ[rayInd := occRow], free[rayInd := freeRow];
      }
      assert occ == ExtrapolatedRagged(yOcc, prevYOcc) && free == ExtrapolatedRagged(yFree, prevYFree);
      extraYOcc, extraYFree := occ, free;
      for cell := 0 to NonNeg(nCells)
        modifies extraXOcc
        invariant forall c :: 0 <= c < cell ==> extraXOcc[c] == Extrapolate(xOcc[c], prevXOcc[c])
      {
        extraXOcc[cell] := Extrapolate(xOcc[cell], prevXOcc[cell]);
      }
      assert extraXOcc[..] == Extrapolated(xOcc[..], prevXOcc);
    }

    /**
     * `dual`: ascent on every multiplier along its constraint at the
     * extrapolated point, then `clamp_duals`.
     */
    method Dual()
      requires Valid()
      modifies this`dualYOccYFree, this`dualYFreeYFree, this`dualYOccXOcc, this`dualYFreeXOcc, this`dualVisCon
      ensures Valid()
      ensures Abstract() == DualPass(Input(), old(Abstract()))
      ensures Work() == old(Work())
    {
      var t, v := Input(), Abstract();
      AscendMultipliers();
      ClampDuals();
      DualPassIsClampedAscent(t, v);
      DualPassPreservesInvariant(t, v);
    }

    /**
     * The ray loop of `dual`: every multiplier moved along its constraint,
     * evaluated at the extrapolated point.
     */
    method AscendMultipliers()
      requires Shaped()
      modifies this`dualYOccYFree, this`dualYFreeYFree, this`dualYOccXOcc, this`dualYFreeXOcc, this`dualVisCon
      ensures VarsOk(Input(), Abstract())
      ensures Abstract() == Ascended(Input(), old(Abstract()))
    {
      dualYOccYFree, dualYFreeYFree, dualYOccXOcc, dualYFreeXOcc, dualVisCon := AscendDuals(Input(), Abstract());
    }

    /** `clamp_duals`: project every multiplier onto the non-negative reals. */
    method ClampDuals()
      requires Shaped()
      modifies this`dualYOccYFree, this`dualYFreeYFree, this`dualYOccXOcc, this`dualYFreeXOcc, this`dualVisCon
      ensures VarsOk(Input(), Abstract())
      ensures Abstract() == ClampedDuals(Input(), old(Abstract()))
    {
      var w := ClampDualRays(Input(), Abstract());
      dualYOccYFree, dualYFreeYFree, dualYOccXOcc, dualYFreeXOcc := w.dualOccFree, w.dualFreeFree, w.dualOccX, w.dualFreeX;
      dualVisCon := w.dualVis;
    }

    /** `get_solution`: the live per-cell occupancy array, not a copy. */
    method GetSolution() returns (solution: array<real>)
      requires Valid()
      ensures solution == xOcc
      ensures solution[..] == Abstract().xOcc
      ensures forall c :: 0 <= c < solution.Length ==> 0.0 <= solution[c] <= 1.0
    {
      solution := xOcc;
    }
  }
}
