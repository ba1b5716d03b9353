# Ray-potential optimizer, modelled in Dafny

This project models `RayOptimizer`, the solver for ray potentials in multi-view
reconstruction. Each ray is a list of grid cells. For every position on a ray
the solver keeps two indicators: `y_occ` (the ray is stopped here) and
`y_free` (the ray is still free here). Each cell has one occupancy `x_occ`.
The indicators are tied together by linear constraints with a Lagrange
multiplier each (the "duals"). In non-convex mode a visibility-consistency
constraint `y_occ <= max(0, y_free[p-1] + x_occ - 1)` is added. The solver
is the diagonally preconditioned first-order primal-dual method of Pock and
Chambolle, with alpha = 1. One `step()` has two passes:

- **Primal pass.** From the current duals it accumulates a delta and a weight
  (a count of constraint terms) for every primal value. Each delta is divided
  by `max(1, weight)`. Then the pass backs up the old values, subtracts the
  deltas, clamps to [0, 1] and extrapolates with `2 * new - prev`.
- **Dual pass.** Every multiplier takes an ascent step along its constraint,
  evaluated at the extrapolated point. Then it is clamped to be non-negative.

There are four layers:

- `numerics.dfy`: the scalar operations, namely the two clamps, the weight
  floor, the one-value descent step, the extrapolation and the grid product.
- `layout.dfy`: the containers. Ragged per-ray arrays are `seq<seq<real>>`;
  per-cell arrays are `seq<real>`. The module has the zero and one builders
  and the entry-wise operations.
- `model.dfy`, `primal_spec.dfy`, `dual_spec.dfy`: the state as a value
  (`Vars`) and what each pass computes, written per entry. The per-cell
  accumulations are written as gathers over the occurrences of a cell. These
  files also prove the invariant that every step keeps and the facts about
  the weights.
- `ray_optimizer.dfy`: the class `RayOptimizer`.
  - Its fields are the Python attributes.
  - `x_occ` and `extra_x_occ` are arrays updated in place. The other
    attributes are `seq` fields that the methods replace.
  - Every method is proved against the value-level functions: its `ensures`
    gives the new state as a function of `old(Abstract())`.
  - The nested ray/position loops of `primal`, `dual` and `clamp_duals` are
    methods over the state as a value, one method per loop level.

All numbers are `real`: arithmetic is exact, with no rounding.

The preconditioner weights are the ones the code computes, not the
closed-form weight of 3.0 sometimes given for an interior `y_free` position.
In convex mode the code counts 4 terms for an interior `y_free`: two from the
position itself, and two from the chain constraints of the next position.
With the visibility term on its linear branch, it counts 5. See
`PrimalSpec.YFreeWeight` and ray_optimizer.py lines 96-128.

## Model

| member | source | states |
|---|---|---|
| Numerics.Clamp01 | ray_optimizer.py:41-42 | the result lies in [0, 1]; it is the input when the input is in [0, 1], 0 below the interval and 1 above it |
| Numerics.Clamp01IsNearest | ray_optimizer.py:41-42 | `clamp01` is the projection onto [0, 1]: no point of the interval is closer to the input |
| Numerics.ClampNonneg | ray_optimizer.py:44-45 | the result is non-negative; it is the input when the input is non-negative, 0 otherwise |
| Numerics.MaxOne | ray_optimizer.py:142-147 | the divisor `max(1.0, weight)` is at least 1 and at least the weight, and is one of the two |
| Numerics.Descend | ray_optimizer.py:139-170 | one divide-subtract-clamp step on a value in [0, 1] ends in [0, 1]; a zero delta leaves the value alone; a positive delta never raises it and a negative one never lowers it |
| Numerics.Extrapolate | ray_optimizer.py:172-183 | the current value is the midpoint of the previous value and the extrapolated one; values in [0, 1] extrapolate into [-1, 2] |
| Numerics.Product | ray_optimizer.py:34 | the product of the grid sizes is positive when every size is positive, and non-negative when every size is non-negative |
| Layout.ZerosAlongRays | ray_optimizer.py:47-48 | one row per ray, with each row as long as its ray, all entries 0.0 |
| Layout.OnesAlongRays | ray_optimizer.py:50-51 | one row per ray, with each row as long as its ray, all entries 1.0 |
| Layout.ZerosAllCells | ray_optimizer.py:53-54 | `[0.0] * n_cells`: `n_cells` zeros, and the empty list for a negative count |
| Layout.Divided | ray_optimizer.py:146-147 | definition (the contract spells out the entry-wise operation): same length; entry `i` is `delta[i] / max(1, weight[i])` |
| Layout.Subtracted | ray_optimizer.py:159-160 | definition (the contract spells out the entry-wise operation): same length; entry `i` is `value[i] - delta[i]` |
| Layout.Clamped | ray_optimizer.py:169-170 | definition (the contract spells out the entry-wise operation): same length; every entry is `clamp01` of the input entry, so it lies in [0, 1] |
| Layout.ClampedNonneg | ray_optimizer.py:218-229 | definition (the contract spells out the entry-wise operation): same length; every entry is `clamp_nonneg` of the input entry, so it is non-negative |
| Layout.Extrapolated | ray_optimizer.py:181-183 | definition (the contract spells out the entry-wise operation): same length; entry `i` is the extrapolation of `current[i]` against `previous[i]` |
| Layout.DividedRagged | ray_optimizer.py:140-145 | definition (the contract spells out the entry-wise operation): keeps the shape of the deltas (and any ray shape they have); row `r` is the row-wise division |
| Layout.SubtractedRagged | ray_optimizer.py:155-158 | definition (the contract spells out the entry-wise operation): keeps the shape of the values; row `r` is the row-wise subtraction |
| Layout.ClampedRagged | ray_optimizer.py:163-168 | definition (the contract spells out the entry-wise operation): keeps the shape of the values; row `r` is the row-wise clamp to [0, 1] |
| Layout.ClampedNonnegRagged | ray_optimizer.py:217-226 | definition (the contract spells out the entry-wise operation): keeps the shape of the values; row `r` is the row-wise clamp to non-negative |
| Layout.ExtrapolatedRagged | ray_optimizer.py:173-180 | definition (the contract spells out the entry-wise operation): keeps the shape of the current values; row `r` is the row-wise extrapolation |
| Model.Init | ray_optimizer.py:56-72 | after `init_variables`: `y_occ` all 0, `y_free` all 1, `n_cells` zeros in `x_occ`, every `extra_*` equal to its primal value, the four duals all 0, `dual_vis_con` present (and all 0) exactly in non-convex mode; every shape follows the rays, and the step invariant holds |
| Model.RayHitsZeroIff | ray_optimizer.py:88 | a ray has no occurrence of cell `c` among its first `n` positions exactly when none of them is `c` |
| Model.HitsZeroIffUnreached | ray_optimizer.py:87-88 | over both loops of the ray scan, a cell has zero occurrences exactly when no ray crosses it |
| PrimalSpec.DyOccs | ray_optimizer.py:80-132 | `dy_occ` after accumulation has the shape of the rays; entry (r, p) is the cost plus the duals of every constraint `y_occ[r][p]` is in |
| PrimalSpec.DyFrees | ray_optimizer.py:80-132 | `dy_free` has the shape of the rays; entry (r, p) is its own duals, minus the two chain duals of position p+1 and, when the branch at p+1 is on its linear side (`Model.Active`), minus the visibility dual of p+1; the last position adds the free-space cost |
| PrimalSpec.YOccWeights | ray_optimizer.py:84-122 | `pc_y_occ[r][p]` is 1 at position 0, 2 further on, and 3 further on in non-convex mode |
| PrimalSpec.YFreeWeights | ray_optimizer.py:85-128 | `pc_y_free` has the shape of the rays; each entry is the count of its own terms, plus the two chain terms of position p+1, plus its visibility term when the branch at p+1 is on its linear side (`Model.Active`) |
| PrimalSpec.DxOccs | ray_optimizer.py:82-130 | `dx_occ` has one entry per cell: the gather over every occurrence of that cell |
| PrimalSpec.PcXOccs | ray_optimizer.py:86-130 | `pc_x_occ` has one entry per cell: the number of terms over every occurrence of that cell |
| PrimalSpec.NewYOccs | ray_optimizer.py:139-170 | the new `y_occ`: each entry is the clamped descent step with the preconditioned delta |
| PrimalSpec.NewYFrees | ray_optimizer.py:139-170 | the new `y_free`, entry by entry in the same way |
| PrimalSpec.NewXOccs | ray_optimizer.py:146-170 | the new `x_occ`, cell by cell in the same way |
| PrimalSpec.PrimalPass | ray_optimizer.py:78-183 | after `primal()`: shapes kept, every primal value in [0, 1], duals untouched, and every extrapolated value at `2 * new - prev`, written as `new - prev == extra - new` |
| PrimalSpec.DescentComposes | ray_optimizer.py:139-170 | the three separate passes over the primal lists (divide, subtract, clamp) give exactly the per-entry descent step |
| PrimalSpec.RaySumUnreached | ray_optimizer.py:117-130 | a ray that never crosses cell `c` adds nothing to it |
| PrimalSpec.CellSumUnreached | ray_optimizer.py:117-130 | a cell that no ray crosses accumulates a zero delta and a zero weight |
| PrimalSpec.RayWeightBounds | ray_optimizer.py:119-130 | along one ray, the weight a cell collects is between 2 and 3 per occurrence, and exactly 2 per occurrence in convex mode |
| PrimalSpec.CellWeightBounds | ray_optimizer.py:119-130 | over all rays, `pc_x_occ[c]` is between 2 and 3 times the number of occurrences of `c`, and exactly twice that in convex mode |
| PrimalSpec.ConvexCellWeight | ray_optimizer.py:119-130 | convex mode: `pc_x_occ[c]` is 2 times the number of occurrences of `c`, whatever the state |
| PrimalSpec.ConvexWeightsFixed | ray_optimizer.py:84-130 | convex mode: `pc_y_free` and `pc_x_occ` are the same for any two states, so the rays alone fix them |
| PrimalSpec.ReachedCellWeight | ray_optimizer.py:117-130 | the converse case: a cell some ray crosses has `pc_x_occ >= 2`, so its delta is divided by the weight itself and not by the floor 1 |
| PrimalSpec.UnreachedCellFixed | ray_optimizer.py:146-170 | a cell that no ray crosses gets `dx_occ = 0` and `pc_x_occ = 0`, and its `x_occ` does not move |
| PrimalSpec.PrimalPassPreservesInvariant | ray_optimizer.py:78-183 | the primal pass keeps the step invariant: shapes, unit box, non-negative duals, zero edge duals, unreached cells at 0 |
| DualSpec.RawDuals | ray_optimizer.py:187-213 | multipliers after the ascent loop: shaped like the rays; entry (r, p) is the old multiplier plus the constraint residual at the extrapolated point, over the number of terms |
| DualSpec.NewDuals | ray_optimizer.py:185-229 | multipliers after the dual pass: shaped like the rays, non-negative, each the clamp of its ascent value |
| DualSpec.Ascended | ray_optimizer.py:187-213 | the state after the ascent loop keeps every shape and leaves the primal and extrapolated values untouched |
| DualSpec.ClampedDuals | ray_optimizer.py:216-229 | after `clamp_duals()`: shapes kept, every multiplier non-negative and equal to the clamp of its old value, primal and extrapolated values untouched |
| DualSpec.ClampedDualsFixesNonneg | ray_optimizer.py:216-229 | `clamp_duals()` changes nothing when every multiplier is already non-negative |
| DualSpec.DualPassIsClampedAscent | ray_optimizer.py:185-214 | `dual()` is its ascent loop followed by `clamp_duals()` |
| DualSpec.DualPass | ray_optimizer.py:185-229 | after `dual()`: shapes kept, every multiplier non-negative, primal and extrapolated values untouched; from non-negative duals, the position-0 chain and visibility multipliers are left as they were |
| DualSpec.DualPassPreservesInvariant | ray_optimizer.py:185-229 | the dual pass keeps the step invariant |
| DualSpec.StepFn | ray_optimizer.py:74-76 | after `step()`: shapes kept, primal values in [0, 1], duals non-negative |
| DualSpec.StepPreservesInvariant | ray_optimizer.py:74-76 | a whole step keeps the step invariant |
| DualSpec.StepBranchSnapshots | ray_optimizer.py:106-207 | the branch test `linear_branch > 0` (`Model.Active`, lines 108-113 and 198-200): the primal half of a step tests it on the state the step starts from, and on it depends whether `dual_vis_con[r][p]` is subtracted from `dy_free[r][p-1]` and whether that entry's weight gets 3 rather than 2; the dual half tests it on the primal values the primal half produced, choosing the /3 residual or the bare `extra_y_occ` term before the clamp |
| DualSpec.Steps | ray_optimizer.py:74-76 | any number of steps keeps the step invariant |
| DualSpec.StepsFromInit | ray_optimizer.py:56-76 | from the initial state, after any number of steps: primal values in [0, 1], duals non-negative, position-0 edge duals 0, and every cell no ray crosses at `x_occ = 0` |
| Optimizer.AccumulateRays | ray_optimizer.py:80-132 | the ray loop of `primal` yields exactly the deltas and weights of the specification |
| Optimizer.AccumulateRay | ray_optimizer.py:88-132 | one ray's iteration yields that ray's rows, and adds that ray's terms to every per-cell sum |
| Optimizer.AccumulatePosition | ray_optimizer.py:89-130 | one position adds exactly its terms: to its own entries, to the predecessor's `y_free` entry, and to its cell |
| Optimizer.AscendDuals | ray_optimizer.py:187-213 | the ray loop of `dual` yields exactly the ascent values of every family, and the visibility family only in non-convex mode |
| Optimizer.DualRay | ray_optimizer.py:188-213 | one ray's iteration yields that ray's ascent rows |
| Optimizer.DualPosition | ray_optimizer.py:189-213 | one position of the loop sets exactly the entries at that position to their ascent values |
| Optimizer.ClampDualRow | ray_optimizer.py:218-229 | one ray of `clamp_duals` clamps every multiplier of the row, and the visibility row only in non-convex mode |
| Optimizer.ClampDualRays | ray_optimizer.py:216-229 | the loop of `clamp_duals` yields exactly the clamped state |
| Optimizer.PrimalWork | ray_optimizer.py:78-152 | the scratch lists after `primal()`: `prev_*` are the values at the start of the pass; `pc_y_occ` takes the values 1/2/3 by position and mode; every delta is its accumulated value over `max(1, weight)` |
| Optimizer.RayOptimizer.constructor | ray_optimizer.py:27-72 | keeps its inputs, `n_cells` is the product of the grid sizes, the state is `Init`, and the invariant holds |
| Optimizer.RayOptimizer.Step | ray_optimizer.py:74-76 | the new state is `StepFn` of the old one; the invariant and all shapes are kept; the scratch lists are those of the primal pass |
| Optimizer.RayOptimizer.Primal | ray_optimizer.py:78-137 | the new state is `PrimalPass` of the old one and the scratch lists are `PrimalWork`; the invariant is kept |
| Optimizer.RayOptimizer.AccumulateDeltas | ray_optimizer.py:79-132 | sets the six delta and weight lists to their accumulated values and touches nothing else |
| Optimizer.RayOptimizer.DivideDeltasByPreconditioners | ray_optimizer.py:139-147 | every delta becomes itself over `max(1, weight)`; the weights and all other fields are untouched |
| Optimizer.RayOptimizer.BackupPrimal | ray_optimizer.py:149-152 | `prev_*` become copies of the primal values |
| Optimizer.RayOptimizer.UpdatePrimalByDeltas | ray_optimizer.py:154-160 | every primal value becomes itself minus its delta, `x_occ` in place |
| Optimizer.RayOptimizer.ClampPrimal | ray_optimizer.py:162-170 | every primal value becomes its clamp to [0, 1], `x_occ` in place |
| Optimizer.RayOptimizer.ComputeExtraPrimal | ray_optimizer.py:172-183 | every extrapolated value becomes `2 * current - prev`, `extra_x_occ` in place |
| Optimizer.RayOptimizer.Dual | ray_optimizer.py:185-214 | the new state is `DualPass` of the old one; the scratch lists are untouched; the invariant is kept |
| Optimizer.RayOptimizer.AscendMultipliers | ray_optimizer.py:187-213 | the multipliers become their ascent values; nothing else changes |
| Optimizer.RayOptimizer.ClampDuals | ray_optimizer.py:216-229 | the state becomes `ClampedDuals` of the old one |
| Optimizer.RayOptimizer.GetSolution | ray_optimizer.py:231-232 | returns the live `x_occ` array itself, whose entries lie in [0, 1] |

## Left out

- `print_state`, `print_primal`, `print_dual` (ray_optimizer.py:234-249): console output only.
- `run.py` is not part of this model. It is the command line and a driver that calls `step()` a fixed number of times and prints. `DualSpec.Steps` takes the iteration count as a parameter instead.
- `tasks.py` is not part of this model. It only holds constant example inputs.
- Convergence is not modelled: neither the all-0.5 outcome of convex mode nor the near-binary outcome of non-convex mode. Both are numerical behaviour over many iterations.
- IEEE floating point: every number is an exact `real`, so rounding and overflow are not modelled.
- `deepcopy` is modelled by value semantics. The ragged lists are `seq` values, so aliasing between their rows cannot arise in the model. The Python code never creates such aliasing either.
- `functools.reduce` is a recursive product. An empty `grid_sizes` list makes `reduce` raise an error. The constructor therefore requires at least one size.
- The fixed-topology preconditioner variant is not part of this model, because the code computes its weights anew in every pass.
- Checking of inputs is a precondition and not an error path, as in the source, which never checks them. The conditions are:
  - every ray is non-empty, which `dy_free[ray_ind][-1]` needs;
  - every cell index is in `[0, n_cells)`;
  - `ray_costs_occ` covers every position and `ray_costs_free` covers every ray.

  Python's wrap-around of a negative index is therefore not modelled.
- Optimizer.RayOptimizer.constructor: the scratch attributes are set up here. Python creates `prev_*`, `dy_*`, `dx_occ` and `pc_*` at the first `primal()` call. Before that call they do not exist.
- `dual_vis_con` exists only in non-convex mode. The model uses an `Option` that is `None` in convex mode.
- `primal` and `dual` loop in place: the loops of `primal` read the duals and the primal values, and each entry of the loop in `dual` is read and updated once. The model runs these loops on a value snapshot of the state and stores the results at the end, which gives the same values.
- The per-ray rows are rebuilt and stored whole rather than changed element by element. Only `x_occ` and `extra_x_occ` are updated in place.
