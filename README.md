# neat-pygame-organisms — a verified model of the agent–food simulation

The program is a pygame arena of agents ("cells") that seek food. Each agent
has a neuro-evolved brain. `MainWindow` advances the world one tick at a time:

- the tick counter goes up by one;
- every agent looks at the foods within its vision range, asks its brain for a
  decision, moves, gains one fitness point and loses health;
- once the warm-up is over, an agent eats the foods close enough to it, and
  each eaten food respawns somewhere else;
- agents found dead during the scan are removed after it;
- when no agent is left, a new generation is bred and 20 new foods are placed.

The repository keeps five incremental versions of the agent side by side. Each
has its own movement rule:

- integer-degree stepped rotation (`cell_v4`, `cell_v3`);
- heading and velocity integration (`cell_v5`, `population/cell`);
- averaged direction deltas (`cell`);
- a steering agent that wraps around the arena edges (`cell_v2`).

They share a "first nearest item wins" scan and a heading normaliser
(`population/base`). The model also covers the food entity and the geometry
and collection helpers.

## Layout

| file | module | what it holds |
|---|---|---|
| wrappers.dfy | `Wrappers` | `Option` (Python's `None` / keyword arguments left out) and `Result` (a raised exception) |
| settings.dfy | `Settings` | arena size 1280×720, margin 15, the four unit directions, colours |
| numerics.dfy | `Numerics` | the library maths as a lawful record `Maths`; `uniform`; `% 360` on reals |
| food.dfy | `Foods` | `Food` class: spawn inside the margins, energy 20, `str(name)` |
| base.dfy | `Base` | `Brain`; health cap and decay; the first-nearest scan; `calc_heading`; `BaseCell` |
| nn_maths.dfy | `NnMaths` | `dist`, `xy_dist`, `dist_to_item`, `dist_between`, `xy_dist_to_item`, `rect_distance` |
| functions.dfy | `Functions` | `append_dict`, `ignore`, `euclidian_distance` |
| population_cell.dfy | `PopulationCell` | the population agent `Cell(BaseCell)` |
| cell_v5.dfy | `CellV5` | heading and velocity agent, velocity clamp, the `info_to_vec` finding |
| cell_v4.dfy | `CellV4` | stepped-rotation agent with limits, food count and children |
| cell_v3.dfy | `CellV3` | stepped-rotation agent with 0.7 thresholds, one input per object seen |
| cell_v1.dfy | `CellV1` | the first agent (`world/cell.py`): averaged decisions, grid moves |
| cell_v2.dfy | `CellV2` | the wrap-around steering `Mob` |
| window.dfy | `Window` | the tick and epoch controller `MainWindow` |

Code that changes state is modelled on classes; the pure helpers are functions.

- Each agent, food and the window is a `class` whose methods update its fields.
- Each loop of the source is a `while`/`for` loop proved against a function of
  the inputs. For example:
  - `Steered`, `Driven` and `Moved` cover the movement loops;
  - `Merged` covers `append_dict`;
  - `Picked` of the death flags covers the dead-cell list;
  - `FirstNearest` covers the nearest-item scan.
- The properties are proved about those functions.

Environment and library calls become parameters:

- The library maths (`sqrt`, `x ** 2`, `sin`/`cos` of degrees, `degrees(atan2)`)
  is a parameter `m: Maths`.
  - `Maths` is a record of functions constrained by the laws the proofs need.
  - These laws: squares non-negative, zero only at zero and even; `sqrt`
    non-negative and positive on positive values; `atan2` in degrees in
    (-180, 180].
- Each random draw `uniform(lo, hi)` is `lo + (hi - lo) * u` for a parameter
  `u` in [0, 1).
  - Inside `MainWindow` the draws come from two `Rng` streams, one per random
    module (`random` and `numpy.random`).
- The brain's `predict` is a function value that the brain carries.
- The next generation's pool is a parameter of `UpdateWorld`.

## Model

| member | source | states |
|---|---|---|
| Numerics.Uniform | src/world/food.py:14-17 | a `uniform(lo, hi)` draw lies in [lo, hi) |
| Numerics.Mod360 | src/world/population/cell.py:67-68 | Python's `x % 360` on a real lies in [0, 360) |
| Numerics.Mod360OfAngle | src/world/cell_v5.py:114-115 | an angle already in [0, 360) is unchanged by `% 360` |
| Numerics.LengthLaws | src/commons/nn_maths_functions.py:6-7 | `sqrt(a**2 + b**2)` is non-negative, zero exactly when both legs are zero, and even in its legs |
| Foods.Spawn | src/world/food.py:13-18 | a spawn point lies inside the margins: x in [15, 1265), y in [15, 705) |
| Foods.SpawnReachesEveryPoint | src/world/food.py:13-18 | every point inside the margins is some pair of draws' spawn point |
| Foods.NatToString | src/world/food.py:26 | the decimal digits of a natural number: non-empty, a single digit exactly below 10 |
| Foods.Str | src/world/food.py:26 | `str(n)`: non-empty, with a leading '-' exactly for negative numbers |
| Foods.NatToStringInjective | src/world/food.py:26 | different naturals get different decimal strings |
| Foods.StrInjective | src/world/food.py:26 | `str` is injective, so the 20 foods of a generation have 20 different names |
| Foods.Food.constructor | src/world/food.py:8-26 | without a position the location is a spawn point; with a position it is `(position[0], position[1])`; energy 20, the colour given and `str(name)` |
| Foods.Food.Respawn | src/world/food.py:31-36 | the new location is a fresh spawn point inside the margins; energy, name and colour are constants |
| Foods.Food.UpdateLocation | src/world/food.py:47-48 | only the coordinates passed change; the others keep their old values |
| Base.Capped | src/world/population/base.py:96-97 | `min(health + delta, cap)`: never above the cap, exactly `health + delta` below it |
| Base.DecayedProperties | src/world/population/cell.py:81-91 | a health decay followed by the kill rule yields health in [0, cap]; it is 0 exactly when the old health was at most the decay; otherwise it is old health minus decay |
| Base.Distances | src/world/population/base.py:80-82 | the distance from the agent to each item, in order |
| Base.FirstMinUnique | src/world/population/base.py:80-86 | at most one index is the first minimum of a sequence of distances |
| Base.FirstMinExists | src/world/population/base.py:80-86 | every non-empty sequence of distances has a first minimum |
| Base.FirstMin | src/world/population/base.py:80-86 | the index of the first minimum: all earlier items are strictly farther, no later item is nearer |
| Base.FirstNearest | src/world/population/base.py:80-86 | the index the strict `<` scan selects: earlier items strictly farther, later items no nearer |
| Base.Nearest | src/world/population/base.py:80-86 | the scan loop returns no item (-1) for an empty list and the first nearest item otherwise |
| Base.NearestFoodAmongFoods | src/world/population/base.py:80-91 | when everything in view is a food, the selection succeeds with the location of one of the foods in view |
| Base.HeadingInRange | src/world/population/base.py:64-70 | with the orientation in [0, 360) the raw angle difference is at most 180, the single +360 applies only below -180, and the heading lies in [-1, 1] |
| Base.BaseCell.constructor | src/world/population/base.py:36-62 | base DNA (speed 30, vision 200), health 100, a spawn point with orientation 0, magic 0.04 and brain fitness reset to 0 |
| Base.BaseCell.InfoToVec | src/world/population/base.py:72-91 | the heading of the first nearest item when it is a food; an empty view or a non-food raises |
| Base.BaseCell.UpdateFitness | src/world/population/base.py:93-94 | the brain's fitness grows by exactly the argument |
| Base.BaseCell.UpdateHealth | src/world/population/base.py:96-97 | the new health is `min(health + delta, 200)`; the location is unchanged |
| Base.BaseCell.UpdateLocation | src/world/population/base.py:99-100 | only the fields passed change |
| Base.BaseCell.Kill | src/world/population/base.py:102-103 | health becomes exactly 0 (so a second kill changes nothing) and the location is unchanged |
| Base.BaseCell.IsDead | src/world/population/base.py:105-108 | true exactly when health is at most 0 |
| NnMaths.XyDist | src/commons/nn_maths_functions.py:10-11 | a two-element displacement |
| NnMaths.XyDistIsDisplacement | src/commons/nn_maths_functions.py:10-11 | `xy_dist(x2, x1, y2, y1)` is the displacement that takes `(x1, y1)` to `(x2, y2)` |
| NnMaths.DistBetween | src/commons/nn_maths_functions.py:18-19 | a two-element displacement between two locations |
| NnMaths.XyDistToItem | src/commons/nn_maths_functions.py:22-23 | a two-element displacement between two locations |
| NnMaths.DisplacementAntisymmetric | src/commons/nn_maths_functions.py:18-23 | `dist_between(a, b)` is the negation of `dist_between(b, a)`, and `xy_dist_to_item(a, b) == dist_between(b, a)` |
| NnMaths.DistToItemProperties | src/commons/nn_maths_functions.py:6-15 | `dist_to_item` is symmetric, non-negative and 0 on a shared location |
| NnMaths.RectDistanceSign | src/commons/nn_maths_functions.py:26-61 | `rect_distance` is never negative, and it is 0 exactly when none of left, right, top, bottom holds |
| NnMaths.RectSidesExclusive | src/commons/nn_maths_functions.py:31-46 | for well-formed rectangles left and right cannot both hold, nor top and bottom |
| NnMaths.RectDistanceOneSide | src/commons/nn_maths_functions.py:47-58 | when exactly one side holds the result is that side's gap, e.g. `x1 - x2b` for left |
| Functions.CopyItems | src/commons/functions.py:11-15 | copying a dict's items into another is the right-biased union of the two |
| Functions.AppendDict | src/commons/functions.py:6-17 | the loops build exactly the merge of `dict_a` and `args` in order |
| Functions.MergedKeys | src/commons/functions.py:10-16 | the merged keys are exactly the keys of `dict_a` and of every dict in `args` |
| Functions.MergedLastWins | src/commons/functions.py:13-15 | a key's value comes from the last dict in `args` that holds it |
| Functions.MergedKeepsFirst | src/commons/functions.py:11-12 | a key only in `dict_a` keeps its value |
| Functions.Ignore | src/commons/functions.py:20-24 | never longer than the input; every element kept is in the input and not in `args`; every element of the input not in `args` is kept |
| Functions.IgnoreAppend | src/commons/functions.py:24 | the filter distributes over concatenation, so the original order is kept |
| Functions.IgnoreIdempotent | src/commons/functions.py:24 | ignoring twice with the same `args` is ignoring once |
| Functions.EuclidianDistanceIsMetricLike | src/commons/functions.py:27-32 | symmetric in its two points, non-negative, 0 for identical points |
| PopulationCell.Steer | src/world/population/cell.py:66-76 | after one decision the orientation lies in [0, 360) |
| PopulationCell.StepSpeed | src/world/population/cell.py:70-72 | the speed of a step is `max(0, speed + thrust * magic)` |
| PopulationCell.SteeredOrientation | src/world/population/cell.py:65-76 | after at least one decision the orientation lies in [0, 360); with none nothing moves |
| PopulationCell.SteeredAppend | src/world/population/cell.py:65-76 | applying decisions `a` and then `b` is applying `a + b` |
| PopulationCell.Cell.constructor | src/world/population/cell.py:16-21 | a fresh base cell, age 0, the name given, brain fitness 0 |
| PopulationCell.Cell.Think | src/world/population/cell.py:49-63 | exactly one input: `[0]` with nothing in view, `[heading]` of the first nearest food otherwise, so exactly one output |
| PopulationCell.Cell.ApplyDecisions | src/world/population/cell.py:65-76 | the location is the old one steered by every decision in order, with the step taken along the already-updated orientation; the health is unchanged |
| PopulationCell.Cell.Eat | src/world/population/cell.py:78-79 | health grows by the food's energy, capped at 200 |
| PopulationCell.Cell.UpdateCreatureProperties | src/world/population/cell.py:81-91 | fitness +1; health decays by 0.1 and is 0 (killed) once it reaches 0, so it is never negative |
| CellV5.ClampSpeed | src/world/cell_v5.py:118-122 | the velocity is clamped into [0, 50] and unchanged inside it |
| CellV5.Drive | src/world/cell_v5.py:112-128 | after one decision `r` lies in [0, 360) and `v` in [0, 50] |
| CellV5.DrivenInRange | src/world/cell_v5.py:111-128 | any run of decisions keeps `r` in [0, 360) and `v` in [0, 50] |
| CellV5.DrivenAppend | src/world/cell_v5.py:111-128 | applying decisions `a` and then `b` is applying `a + b` |
| CellV5.InfoToVecAsWritten | src/world/cell_v5.py:163-181 | as written `info_to_vec` always raises, and it raises the missing-`LOCATION` error exactly for a non-empty view |
| CellV5.InfoToVecAsWrittenMissesFood | src/world/cell_v5.py:163-181 | a view holding one food has a nearest food, yet the code as written raises for it |
| CellV5.Cell.constructor | src/world/cell_v5.py:45-76 | a spawn point, a uniform heading in [0, 360), v 30, health 100, age 0, vision 200, brain fitness 0 |
| CellV5.Cell.Think | src/world/cell_v5.py:97-109 | one input `[health, 0]` with nothing in view, `[health, heading]` of the first nearest food otherwise, built on the corrected `InfoToVec` of the Findings |
| CellV5.Cell.ApplyDecisions | src/world/cell_v5.py:111-128 | the kinematics are the old ones driven by every decision in order; health and age unchanged |
| CellV5.Cell.ApplyDecision | src/world/cell_v5.py:112-128 | heading, then clamped velocity, then a position step along the updated heading and velocity with dt 0.04 |
| CellV5.Cell.Eat | src/world/cell_v5.py:130-131 | health grows by the food's energy, capped at 300 |
| CellV5.Cell.IsDead | src/world/cell_v5.py:133-136 | true exactly when health is at most 0 |
| CellV5.Cell.InfoToVec | src/world/cell_v5.py:138-143 | measured from `(x, y)`: the heading of the first nearest food, in [-1, 1] under an in-range heading; an empty view or a non-food raises |
| CellV5.Cell.UpdateFitness | src/world/cell_v5.py:145-146 | fitness grows by exactly the argument |
| CellV5.Cell.UpdateHealth | src/world/cell_v5.py:148-149 | the new health is `min(health + delta, 300)` |
| CellV5.Cell.UpdateCreatureProperties | src/world/cell_v5.py:151-159 | fitness +1 and health -0.1 (capped); no reset to 0, so health can fall below 0 |
| CellV4.LimitsOf | src/world/cell_v4.py:145-150 | the limits `(y, HEIGHT - y, x, WIDTH - x)`: opposite limits add up to the arena size |
| CellV4.LimitsInsideMargins | src/world/cell_v4.py:145-150 | a location inside the margins has every limit of at least the margin |
| CellV4.Facing | src/world/cell_v4.py:130-132 | `direction` is a two-element vector `[sin, cos]` of the angle |
| CellV4.RotateKeepsStepAngle | src/world/cell_v4.py:174-177 | a rotation by ±3 modulo 360 keeps the angle in [0, 360) and a multiple of 3, and changes it |
| CellV4.TurnKeepsStepAngle | src/world/cell_v4.py:173-178 | `output[1]` keeps the angle reachable, and leaves it unchanged exactly when it is 0 |
| CellV4.MovedKeepsStepAngle | src/world/cell_v4.py:161-178 | any run of outputs keeps the angle in [0, 360) and a multiple of 3 |
| CellV4.MoveStill | src/world/cell_v4.py:164-178 | `output[0] == 0` does not move; the angle is unchanged exactly when `output[1] == 0` |
| CellV4.Cell.constructor | src/world/cell_v4.py:40-91 | a spawn point, angle 0, health 100, no food eaten, no children, age 0, brain fitness 0 |
| CellV4.Cell.Think | src/world/cell_v4.py:113-128 | one input `[health, x, y, fx, fy]`, with `(-1000, -1000)` when nothing is in view |
| CellV4.Cell.SetDirection | src/world/cell_v4.py:130-132 | `direction` becomes `[sin, cos]` of the angle; nothing else changes |
| CellV4.Cell.UpdateLocation | src/world/cell_v4.py:143-150 | only the coordinates passed change, and the limits are recomputed from the new location |
| CellV4.Cell.UpdateLimits | src/world/cell_v4.py:152-153 | only the limits passed change |
| CellV4.Cell.UpdateHealth | src/world/cell_v4.py:155-156 | the new health is `min(health + delta, 200)` |
| CellV4.Cell.UpdateFitness | src/world/cell_v4.py:158-159 | fitness grows by exactly the argument |
| CellV4.Cell.ApplyMovement | src/world/cell_v4.py:161-178 | the pose is the old one moved by every output in order; the angle stays a multiple of 3 in [0, 360) |
| CellV4.Cell.ApplyOutput | src/world/cell_v4.py:164-178 | `output[0] > 0` steps back by `speed * direction`, `< 0` forward by half of it; `output[1]` rotates by -3 / +3 |
| CellV4.Cell.UpdateCreatureProperties | src/world/cell_v4.py:180-192 | fitness +1; health decays by 0.5 and is exactly 0 once it is no longer positive; the pose, limits, direction, foods, children and age are kept |
| CellV4.Cell.Kill | src/world/cell_v4.py:201-202 | health becomes exactly 0; the pose, limits, direction, foods, children and age are kept |
| CellV4.Cell.Eat | src/world/cell_v4.py:204-209 | health + energy (cap 200), one more food, and from the second food on one more child; the pose, limits, direction and age are kept |
| CellV4.Cell.Reproduce | src/world/cell_v4.py:255-258 | exactly one mutated copy of the brain is appended to the children; limits, direction and age are kept |
| CellV4.Cell.Birth | src/world/cell_v4.py:260-261 | the children list becomes empty; limits, direction and age are kept |
| CellV4.Cell.InfoToVec | src/world/cell_v4.py:229-253 | the coordinates of the first nearest item when it is a food; an empty view or a non-food raises |
| CellV3.ChooseCases | src/world/cell_v3.py:165-179 | the first of a pair fires exactly when it exceeds 0.7 and the other; equal values fire neither |
| CellV3.MoveProperties | src/world/cell_v3.py:165-179 | one output keeps the angle reachable; equal translation outputs do not move, equal rotation outputs do not turn |
| CellV3.MovedKeepsStepAngle | src/world/cell_v3.py:163-179 | any run of outputs keeps the angle in [0, 360) and a multiple of 3 |
| CellV3.Inputs | src/world/cell_v3.py:112-122 | `max(1, len(objects_in_view))` inputs: `[x, y, 0, 0]` with nothing in view, else `location ++ [other.x - x, other.y - y]` per object |
| CellV3.Cell.constructor | src/world/cell_v3.py:37-91 | a spawn point, angle 0, health 100, age 0, brain fitness 0 |
| CellV3.Cell.Think | src/world/cell_v3.py:112-130 | one prediction per input, in order |
| CellV3.Cell.InfoToVec | src/world/cell_v3.py:225-239 | the displacement from the agent to the object |
| CellV3.Cell.SetDirection | src/world/cell_v3.py:132-134 | `direction` becomes `[sin, cos]` of the angle; nothing else changes |
| CellV3.Cell.UpdateLocation | src/world/cell_v3.py:145-152 | only the coordinates passed change, and the limits are recomputed |
| CellV3.Cell.UpdateHealth | src/world/cell_v3.py:157-158 | the new health is `min(health + delta, 200)`; the pose, limits, direction and age are kept |
| CellV3.Cell.UpdateFitness | src/world/cell_v3.py:160-161 | fitness grows by exactly the argument |
| CellV3.Cell.ApplyMovement | src/world/cell_v3.py:163-179 | the pose is the old one moved by every output in order; the angle stays reachable |
| CellV3.Cell.ApplyOutput | src/world/cell_v3.py:165-179 | at most one translation and at most one rotation fire, each behind its 0.7 threshold |
| CellV3.Cell.UpdateCreatureProperties | src/world/cell_v3.py:181-193 | fitness +1; health decays by 0.5 and is exactly 0 once it is no longer positive; the pose, limits, direction and age are kept |
| CellV3.Cell.IsDead | src/world/cell_v3.py:197-200 | true exactly when health is at most 0 |
| CellV3.Cell.Kill | src/world/cell_v3.py:202-203 | health becomes exactly 0; the pose, limits, direction and age are kept |
| CellV3.Cell.Eat | src/world/cell_v3.py:205-206 | health grows by the food's energy, capped at 200; the pose, limits, direction and age are kept |
| CellV1.Interpreted | src/world/cell.py:81-110 | two actions, `[0, 0]` for no decisions |
| CellV1.TiesPullNowhere | src/world/cell.py:95-102 | `left == right` contributes nothing to x and `up == down` nothing to y |
| CellV1.SumAppend | src/world/cell.py:89-102 | the accumulated pulls of `a + b` are the sums of those of `a` and `b` |
| CellV1.AllTiesStandStill | src/world/cell.py:89-110 | decisions that are all ties yield the actions `[0, 0]` |
| CellV1.WeightedBounds | src/world/cell.py:95-102 | a pull from unit outputs lies in [0, 1] |
| CellV1.SumsBounded | src/world/cell.py:89-102 | with unit outputs the summed pulls are bounded by the number of decisions |
| CellV1.AveragedBounds | src/world/cell.py:105-107 | a bounded sum times the speed over the count lies in [-10, 10] |
| CellV1.ActionsWithinSpeed | src/world/cell.py:81-110 | with unit outputs each action lies within the speed 10 |
| CellV1.Cell.constructor | src/world/cell.py:29-58 | a spawn point, health 100, age 0, brain fitness 0 |
| CellV1.Cell.Think | src/world/cell.py:75-79 | the prediction on the location followed by the inputs |
| CellV1.Cell.InterpretDecisions | src/world/cell.py:81-110 | the loop computes exactly the averaged, speed-scaled pulls |
| CellV1.Cell.ApplyAction | src/world/cell.py:112-113 | x and y grow by `actions[0]` and `actions[1]` |
| CellV1.Cell.Move | src/world/cell.py:115-129 | UP/DOWN/LEFT/RIGHT change exactly one coordinate by 10 in the direction's sign; anything else does not move |
| CellV1.Cell.UpdateLocation | src/world/cell.py:134-135 | only the coordinates passed change |
| CellV1.Cell.UpdateHealth | src/world/cell.py:137-138 | the new health is `min(health + delta, 200)` |
| CellV1.Cell.UpdateFitness | src/world/cell.py:140-141 | fitness grows by exactly the argument |
| CellV1.Cell.UpdateCreatureProperties | src/world/cell.py:143-160 | age +1; on or beyond an arena edge, or out of health, the agent is killed (health 0, fitness = age); otherwise nothing else changes |
| CellV1.Cell.Kill | src/world/cell.py:162-164 | health 0 and fitness = age, so a second kill changes nothing |
| CellV1.Cell.Eat | src/world/cell.py:167-168 | health grows by the food's energy, capped at 200 |
| CellV2.Wrap | src/world/cell_v2.py:95-102 | beyond the upper edge wraps to 0, below 0 wraps to the edge, and a coordinate on [0, edge] (the edge included) is kept |
| CellV2.SteppedBounds | src/world/cell_v2.py:87-104 | after at least one action the position is inside the arena and the velocity no longer than the speed 1 |
| CellV2.Mob.constructor | src/world/cell_v2.py:40-72 | a spawn point, `pos` at its centre, the velocity of length 1 turned by a uniform angle, no acceleration |
| CellV2.Mob.Update | src/world/cell_v2.py:87-104 | the motion is the old one stepped by every target; after one, `LOCATION == pos`, inside the arena, with the velocity bounded |
| CellV2.Mob.Think | src/world/cell_v2.py:117-118 | the target's location as a two-element list |
| CellV2.Mob.UpdateHealth | src/world/cell_v2.py:120-121 | the new health is `min(health + delta, 100)` |
| CellV2.Mob.UpdateFitness | src/world/cell_v2.py:123-124 | fitness grows by exactly the argument |
| CellV2.Mob.UpdateLocation | src/world/cell_v2.py:126 | only the coordinates passed change |
| Window.Picked | src/interface/window.py:66-67 | the items whose flag matches, in order, never more than the input |
| Window.PickedWithin | src/interface/window.py:66-67 | every picked item is an item of the input |
| Window.PickedAppend | src/interface/window.py:66-67 | picking from `s + [x]` is picking from `s` and then `x` when its flag matches |
| Window.PickedDistinct | src/interface/window.py:79-80 | picking keeps a duplicate-free list duplicate-free |
| Window.RemoveFirst | src/interface/window.py:80 | `list.remove` of a present item removes one occurrence; an absent item changes nothing |
| Window.RemoveAllKeepsHead | src/interface/window.py:79-80 | removing items other than the head keeps it at the head |
| Window.RemoveAllFlagged | src/interface/window.py:79-80 | removing the flagged items of a duplicate-free list one by one leaves exactly the unflagged ones, in order |
| Window.Population.constructor | src/interface/window.py:93 | generation 0 with the pool given |
| Window.Population.Epoch | src/interface/window.py:95 | one more generation, with the pool bred from the previous one |
| Window.Visible | src/interface/window.py:50-54 | only foods of `world_info` are seen |
| Window.VisibleMembers | src/interface/window.py:50-54 | a food is seen exactly when it is in `world_info` at a distance strictly below the vision range |
| Window.VisibleAppend | src/interface/window.py:50-54 | one more food joins the end of the view exactly when it is near, so the view keeps the foods' order |
| Window.VisibleDistinct | src/interface/window.py:50-54 | a view of different foods holds no food twice |
| Window.RemoveFirstAt | src/interface/window.py:80 | `list.remove(x)` takes out exactly the first occurrence of `x`: `s[..i] + s[i+1..]` |
| Window.Sightings | src/interface/window.py:50-57 | one food sighting per food in view, at its location, in order |
| Window.DeadFlags | src/interface/window.py:64-67 | a flag per cell, set exactly when the tick's decay leaves it dead |
| Window.PickedApart | src/interface/window.py:79-80 | survivors keep distinct objects, bases and brains |
| Window.ReachFlagsAt | src/interface/window.py:71-75 | flag `j` is set exactly when the centre of food `j` (its location + 10 on each axis) is nearer than `vision_range - 170` |
| Window.CountStep | src/interface/window.py:70-77 | the number of foods eaten grows by one exactly for a food in reach |
| Window.MealsCapped | src/interface/window.py:76 | from a health within the cap, `n` meals give `min(h + 20n, 200)` |
| Window.Redraw | src/interface/window.py:77 | a respawn from two draws lands inside the margins |
| Window.RespawnedAt | src/interface/window.py:70-77 | after the meals each eaten food is at the spawn of its own two draws, the `k`-th eaten taking draws `n + 2k` and `n + 2k + 1`; every other food stays where it was |
| Window.RespawnedStep | src/interface/window.py:70-77 | dealing with one more food changes only that food's location, to its respawn when it is eaten |
| Window.FedStep | src/interface/window.py:70-77 | one turn of the eating loop keeps the loop's account: health after the meals so far, draws used, locations respawned so far |
| Window.MainWindow.constructor | src/interface/window.py:17-43 | tick 1, generation 0, one agent per brain of the pool, 20 foods, and `world_info == foods` |
| Window.MainWindow.MakeCells | src/interface/window.py:106 | one fresh agent per brain of the pool, named by the brain's id, at a spawn point with health 100 and fitness 0 |
| Window.MainWindow.GeneratePopulation | src/interface/window.py:88-106 | one epoch, then one fresh agent per brain of the new pool |
| Window.MainWindow.GenerateWorldEnvironment | src/interface/window.py:108-111 | exactly 20 distinct fresh foods named "0".."19", energy 20, colour (255, 0, 255), inside the margins |
| Window.MainWindow.Feed | src/interface/window.py:69-77 | exactly the foods in view whose centre is nearer than `vision_range - 170` are eaten, in order: health `min(h + 20n, 200)` for the `n` eaten, `2n` more numpy draws, each eaten food respawned at its own two draws and every other food kept; the agent does not move and the foods stay inside the margins |
| Window.MainWindow.Act | src/interface/window.py:56-66 | given food sightings, the agent moves by its brain's decision on the heading of the nearest food (0 with none); fitness +1; the decay and kill rule applied; dead exactly when the old health was at most 0.1 |
| Window.MainWindow.Graze | src/interface/window.py:69-77 | during the first 30 ticks nothing changes; afterwards exactly what `Feed` states; no other agent's health changes |
| Window.MainWindow.FeedNext | src/interface/window.py:70-77 | one turn of `Feed`'s loop keeps its account for one more food, and the agent does not move |
| Window.MainWindow.FeedEach | src/interface/window.py:70-77 | the loop of `Feed` deals with every food in view, keeping its account to the end, and the agent does not move |
| Window.MainWindow.FeedOne | src/interface/window.py:71-77 | food `k` is eaten and respawned at the next two numpy draws exactly when its centre is nearer than `vision_range - 170`; otherwise nothing changes; no other food moves |
| Window.MainWindow.Sense | src/interface/window.py:50-67 | the view is exactly the foods in range; the agent moves by its brain's decision on the nearest food; fitness +1; the decay and kill rule applied; dead exactly when the old health was at most 0.1; no food moves |
| Window.MainWindow.ScanCell | src/interface/window.py:49-77 | one agent's turn: fitness +1, dead exactly per the decay, no other agent's health or fitness touched; during the first 30 ticks nothing is eaten and no food moves; afterwards the foods in view within the eating range of the agent's new position are eaten and respawned exactly as `Feed` states, the others kept |
| Window.MainWindow.ScanAll | src/interface/window.py:47-77 | the dead list is exactly the agents flagged by their health at the start of the scan, in order; every agent's fitness grows by exactly 1 |
| Window.MainWindow.Purge | src/interface/window.py:79-80 | the agents left are those without the dead ones |
| Window.MainWindow.Prune | src/interface/window.py:79-80 | removing the agents flagged dead leaves exactly the unflagged ones, in order, still apart |
| Window.MainWindow.Tick | src/interface/window.py:46 | the tick grows by one; agents, foods and the world seen are kept |
| Window.MainWindow.TickScan | src/interface/window.py:46-77 | tick +1, then every agent's turn: the dead list is exactly the agents flagged at the start, every fitness +1, the same agents and foods |
| Window.MainWindow.ScanNext | src/interface/window.py:49-67 | one turn of the scan adds agent `i` to the dead list exactly when it was flagged, and its fitness alone grows |
| Window.MainWindow.Cull | src/interface/window.py:46-80 | tick +1; the survivors are exactly the agents not flagged dead at the scan's start, in order, even when a dead agent ate later in the tick; every agent of the tick has fitness +1; the foods list is kept |
| Window.MainWindow.Restart | src/interface/window.py:82-84 | one epoch, one fresh agent per brain of the new pool and 20 fresh foods named "0".."19"; the tick is kept |
| Window.MainWindow.UpdatePopulation | src/interface/window.py:123 | `world_info` becomes `foods`; agents, foods and tick unchanged |
| Window.MainWindow.UpdateWorld | src/interface/window.py:45-86 | tick +1, never reset; with survivors the agents are exactly the survivors and foods and generation are kept; with none, one epoch, one agent per new brain and 20 new foods named "0".."19"; every agent of the tick whose brain is not bred again has fitness +1 |

## Left out

- Rendering, fonts, images, labels and `do_rotate`'s image handling: screen output only. `update_population` keeps only `world_info = foods`.
- Event and UI plumbing (`run`, `handle_events`, `handle_keys`, `handle_mouse_buttons`, `on_manual`, the timer set-up) and the `manual=True` branch of `update_world`, which calls `think()` without its argument.
- Persistence: `save_brain`, `load_brain` and the `load_state` path of `generate_population`.
- The brain and population library: `Brain.predict` is a function value carried by the brain; `mutate` yields an opaque `MutatedCopyOf` token; `Population.epoch` is replaced by the next pool, given as a parameter. `Options.set_options` and the printing of the best brain are left out.
- Library numerics: `sqrt`, `** 2`, `hypot`, `sin`/`cos` of degrees and `degrees(atan2)` are the fields of a `Maths` record with range laws, not IEEE floating point. `round(x, 2)` is the identity on reals.
- Randomness: every `uniform` draw is a parameter `u` in [0, 1), or the next element of a draw stream; the DNA colours of `cell`, `cell_v2`, `cell_v3` and `cell_v4` (src/world/cell.py:32, src/world/cell_v2.py:44, src/world/cell_v3.py:40, src/world/cell_v4.py:43) are not drawn, since nothing reads them.
- CellV2.Mob.Update: `seek_with_approach` and the `Vector2` operations `length`, `normalize_ip`, `scale_to_length` and `rotate` are library functions with laws (the scaled length equals the target length). The `normalize_ip` of a zero vector, which raises in pygame, is not modelled.
- Foods.Food.constructor: a position list of length 1 would raise an IndexError and is excluded by the precondition.
- CellV1.Cell.InterpretDecisions: each decision must have exactly five outputs, as the tuple unpacking demands; a decision of another length, which raises, is not modelled.
- CellV3.Cell.ApplyMovement, CellV3.Cell.ApplyOutput, CellV4.Cell.ApplyMovement, CellV4.Cell.ApplyOutput: each brain output must be long enough for the indexing of `apply_movement`, at least four values for `cell_v3` (src/world/cell_v3.py:165-177 reads `output[0]` to `output[3]`) and at least two for `cell_v4` (src/world/cell_v4.py:164-176 reads `output[0]` and `output[1]`); a shorter output, on which the code raises IndexError, is excluded by the preconditions and not modelled. Nothing in the repository fixes the output count of these two agent versions, since their brains come from the brain library, which is not part of this model.
- Window.RemoveFirst: Python's `list.remove` of an absent item raises; the model leaves the list unchanged instead, and the controller only removes agents it found in the list.
- CellV5.Cell.UpdateCreatureProperties: this class has no `kill` of its own, so the call reaches pygame's `Sprite.kill`, which only removes the sprite from its groups; the model changes nothing there.
- Window.MainWindow.UpdateWorld: does not restate the per-agent movement and meals; Window.MainWindow.Sense and Window.MainWindow.ScanCell state them for each turn. Its fitness clause covers only the agents whose brain is not in the new pool `next`: a brain that is, is handed to a fresh agent whose constructor sets its fitness to 0.
- The window imports its agent class as `CellV5`, while `update_world` calls `apply_decisions` and reads `LOCATION` and `DNA.vision_range`. The agents of `cell.py`, `cell_v2.py`, `cell_v3.py` and `cell_v4.py` have `LOCATION` and `DNA.vision_range` (src/world/cell.py:35,42, src/world/cell_v2.py:47,54, src/world/cell_v3.py:44,51, src/world/cell_v4.py:47,55) but no `apply_decisions`; `cell_v5.py` has `apply_decisions` (src/world/cell_v5.py:111) but no `LOCATION`. Only the population `Cell` (src/world/population/cell.py:65, with its base in src/world/population/base.py:45,52) has all three. The binding of the name is in `world/__init__.py`, which is not part of this model. The controller is modelled driving the population `Cell`.
- Each agent's view is filtered at its own turn, as the code does, so a later agent sees foods respawned by an earlier one in the same tick.
- Unused state: `cell_v5`'s weight matrices and its `dv`, `d_food` and `r_food` (src/world/cell_v5.py:54-58), `distance_travelled`, `update_dna`, the prints in `rect_distance`, the two prints of `cell`'s `think` (src/world/cell.py:76,78; console output only) and the `rect` bookkeeping of all agent versions.
- `cell_v4.is_dead`, `cell_v4.do_rotate`, `cell_v3.update_limits` and `cell_v3.do_rotate` are not modelled separately: the death test is the same as for the other versions, and the `do_rotate` calls reduce to `SetDirection`.
- CellV5.Cell.Think: as written `think` (src/world/cell_v5.py:104) calls `info_to_vec`, which raises on the missing `self.LOCATION` for any non-empty view (see Findings); the model's `Think` is built on the corrected `CellV5.Cell.InfoToVec`, so its `[health, heading]` case is the intended behaviour, not the code as written.
- The population's pool is assumed fit (`FitPool`): no brain twice, and each brain gives the two outputs that `apply_decisions` reads, as `Options.set_options(1, 2, …)` (src/interface/window.py:37) configures the foreign brain library, which is not part of this model.
- The `print('REPRODUZIU')` in `cell_v4`'s `eat` (src/world/cell_v4.py:208): console output only.
- `append_dict` builds a fresh dict and leaves its inputs unchanged; Dafny maps are values, so this holds by construction and is not stated separately.

## Findings

| source | as written | input that shows it | evidently intended | confidence | as-written member | corrected member |
|---|---|---|---|---|---|---|
| src/world/cell_v5.py:163-181 | `info_to_vec` measures `dist_to_item(self, item)`, which reads `self.LOCATION`; this class keeps its position in `x` and `y` and has no `LOCATION`, so the first item raises AttributeError | a view holding one food, e.g. a food at (100, 100) | the distance from the agent's `(x, y)` to each item, then the heading of the first nearest food | not executed | CellV5.InfoToVecAsWritten, CellV5.InfoToVecAsWrittenMissesFood | CellV5.Cell.InfoToVec |
