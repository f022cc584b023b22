# Boids flocking core, modelled in Dafny

This project models the flocking physics of the repository's two `Boid` classes.

- **`Gordo` (`gordo.dfy`)** models `gordo.py`.
  - Each boid steers by alignment, separation and cohesion. These rules see only boids at a distance `0 < dist < r`.
  - A margin spring pushes a boid back from the walls.
  - The speed is capped, and the position advances by `T` times the new velocity.
  - One animation tick computes every force from the unmodified flock before it updates any boid. With the script's constants, no boid moves more than 0.1 in a tick.
- **`CasosSimulacion` (`casos.dfy`)** models `Boid.__init__` and `Boid.actualizar` of `modules/casos_simulacion.py`.
  - Alignment and cohesion use inclusive radii, so a boid counts itself.
  - Separation sums unit vectors.
  - A hard border pulls a boid back into a box.
  - Lateral noise is added perpendicular to the heading.
  - The speed is clamped to a floor and a ceiling. Both are judged on the speed before the clamp.
  - The model also covers the in-place sweep that `main.py` runs over a given index order. The sweep uses the update as written, including the defect under "## Findings".
- **`Vectors` (`vectors.dfy`)** is shared by both. It holds 2D vectors over `real`, agents `(pos, vel)`, sums and means, and facts about a square-root oracle.

Modelling choices:

- **Square roots.** Dafny cannot compute `np.linalg.norm`. Every operation that takes a norm receives a function `sqrt` and the requirement `IsSqrt(sqrt)`: on non-negative reals, `sqrt` is non-negative and squares back to its argument.
- **Neighbour tests.** These are stated on squared distances. A lemma ties each one to the source's test on the Euclidean distance.
- **World extents in `gordo.py`.** Each `gordo.py` boid stores its own `ancho_mundo` and `alto_mundo` (gordo.py:16-17), and the margin spring reads them (gordo.py:46-52). The model passes one `World` to the whole flock instead. The script builds every boid with the same 100 × 100 extents (gordo.py:141-150), so the two agree for every flock the script creates. A flock whose boids have different extents is not modelled.
- **Randomness.** The noise draw `np.random.rand()` is a parameter `u`. The sweep order is a parameter `order`, with one draw per step in `draws`.
- **Where the code and the written design disagree, the model follows the code:**
  - the casos neighbour tests are inclusive (`<=`), so a boid is in its own alignment and cohesion neighbourhood;
  - the casos ceiling fires at `>=`;
  - the casos floor fires at `<=`, which includes speed zero. There the code divides by zero, and the model returns `None` rather than leaving the velocity at zero.

## Model

| member | source | states |
|---|---|---|
| Gordo.NeighbourMeansDistance | gordo.py:78-80 | the squared-distance neighbour test holds exactly when `0 < ‖me − other‖ < r` |
| Gordo.NeighbourExclusions | gordo.py:80 | the boid itself, a co-located boid and a boid exactly at the radius are never neighbours |
| Gordo.NeighboursMembers | gordo.py:77-82 | a boid is in the neighbourhood iff it is in the flock and passes the neighbour test |
| Gordo.Alignment | gordo.py:70-90 | zero when no neighbour is in range; otherwise `neighbour count × (a + own velocity)` equals the sum of neighbour velocities, so `a` is the mean neighbour velocity minus own velocity |
| Gordo.ComputeAlignment | gordo.py:74-90 | the one-pass loop with its running sum and count returns exactly the reference alignment |
| Gordo.Separation | gordo.py:92-106 | separation plus the sum of neighbour positions equals `count × own position`, i.e. the raw sum of `pos − other.pos`; zero with no neighbours |
| Gordo.ComputeSeparation | gordo.py:96-106 | the accumulating loop returns exactly the reference separation |
| Gordo.Cohesion | gordo.py:108-128 | zero when no neighbour is in range; otherwise `count × (c + own position)` equals the sum of neighbour positions, so `c` is the centroid minus own position |
| Gordo.ComputeCohesion | gordo.py:112-128 | the loop returns exactly the reference cohesion |
| Gordo.SeparationOpposesCohesion | gordo.py:92-128 | for a shared radius, separation is minus the neighbour count times cohesion |
| Gordo.WithinRadius | gordo.py:78-80 | the source's `0 < dist < r` on the Euclidean norm agrees with the squared-distance test |
| Gordo.CalculateForces | gordo.py:19-32 | the total force is `wa·alignment + ws·separation + wc·cohesion`, with each rule as its reference definition |
| Gordo.MarginPush | gordo.py:39-52 | per axis: positive iff below the margin, negative iff above `extent − margin` (and not below the margin); the spring's rest point is the crossed margin line |
| Gordo.BoundaryForceInsideBand | gordo.py:40-52 | inside the band `[margin, extent − margin]` on both axes the boundary force is zero |
| Gordo.LimitSpeed | gordo.py:60-63 | the result's speed is at most the ceiling; a velocity within the ceiling is unchanged; a faster one is rescaled to exactly the ceiling, parallel and pointing the same way |
| Gordo.UpdateState | gordo.py:34-66 | the new velocity is `v + dt·(force + boundary)` capped as above, and the new position is the old one plus `dt` times the new, capped velocity |
| Gordo.ComputeForces | gordo.py:170-173 | the first pass returns one force per boid, each the total force on that boid computed against the whole unmodified flock |
| Gordo.Commit | gordo.py:176-179 | the second pass updates boid `i` with force `i` and keeps the flock's length and order |
| Gordo.Step | gordo.py:166-179 | the flock keeps its length and order; boid `i` is updated with the force computed on the unmodified flock; every new speed is within the ceiling |
| Gordo.AnimationTick | gordo.py:133-179 | the tick with the script's weights, radii, period 0.01 and world 100 × 100 is `Step` with those constants, and it moves no boid more than 0.1 (squared displacement at most 0.01) |
| CasosSimulacion.NewBoid | modules/casos_simulacion.py:3-25 | the boid holds the given state and boxes and exactly the constants of `__init__`: floor 5, ceiling 15, weights 0.1/0.1/0.1/2/0.05, radii 4/1.5/4, `T = 0.001`; so its floor is positive and below its ceiling, and its time step is positive |
| CasosSimulacion.InReachMeansDistance | modules/casos_simulacion.py:33-34 | the squared tests are exactly `‖other − me‖ <= r` and `0 < ‖me − other‖ <= r` |
| CasosSimulacion.ReachMembers | modules/casos_simulacion.py:32-36 | a boid is within reach iff it is in the flock and within the inclusive radius |
| CasosSimulacion.SelfInReach | modules/casos_simulacion.py:32-36 | a boid in the flock is always within its own non-negative reach, so the alignment count is positive |
| CasosSimulacion.NeverRepelsItself | modules/casos_simulacion.py:47-48 | a boid never enters its own separation sum |
| CasosSimulacion.Alignment | modules/casos_simulacion.py:27-39 | zero when nothing is in reach; otherwise `count × (a + own velocity)` equals the sum of velocities in reach, i.e. the mean of `v_j − v` |
| CasosSimulacion.Separation | modules/casos_simulacion.py:41-49 | the sum of unit vectors has squared length at most the square of the number of repelling boids, and is zero when none repels |
| CasosSimulacion.CohesionDifferences | modules/casos_simulacion.py:54-59 | the accumulated differences plus `count × own position` equal the sum of positions in reach |
| CasosSimulacion.Cohesion | modules/casos_simulacion.py:51-62 | intended cohesion: zero when nothing is in reach, otherwise the centroid in reach minus own position |
| CasosSimulacion.DifferencesAreScaledCohesion | modules/casos_simulacion.py:54-62 | the raw differences the cohesion loop accumulates are the intended cohesion times the number of boids in reach |
| CasosSimulacion.SteeringAsWritten | modules/casos_simulacion.py:52-62 | for every flock, relative to the intended steering: the same `ai`, `ci` zero, and `si` equal to the intended `si` plus the count in reach times the intended `ci` |
| CasosSimulacion.IntendedSteering | modules/casos_simulacion.py:86-88 | with separate accumulators, `si` keeps the unit-vector bound and `ci` is the centroid offset |
| CasosSimulacion.AliasedCohesionCounterexample | modules/casos_simulacion.py:52-62 | for a boid and one other boid between the two radii, the code yields `si = offset, ci = 0` while the intended result is `si = 0, ci = offset / 2` |
| CasosSimulacion.BorderPull | modules/casos_simulacion.py:64-83 | per axis: positive iff below the minimum, negative iff above the maximum (and not below the minimum); the pull lands exactly on the crossed edge |
| CasosSimulacion.BorderPullLandsInside | modules/casos_simulacion.py:67-83 | for a non-empty interval, coordinate plus pull lies in the interval, and the pull is zero inside it |
| CasosSimulacion.LateralNoise | modules/casos_simulacion.py:90-96 | the noise is perpendicular to the velocity and zero for a boid at rest; its cross product with the velocity is `(2u − 1)·‖v‖`, so it lies on the left normal `(−v.y, v.x)`, pointing left of the heading for `u > 1/2` and right for `u < 1/2`; its squared length is `(2u − 1)²`, at most 1 for a draw in `[0, 1]` |
| CasosSimulacion.LateralNoiseUnique | modules/casos_simulacion.py:91-94 | for a moving boid, any vector perpendicular to the velocity with cross product `(2u − 1)·‖v‖` is the noise, so the contract of `LateralNoise` fixes it completely |
| CasosSimulacion.ClampSpeed | modules/casos_simulacion.py:99-104 | fails exactly when a branch divides by a zero speed. For `0 <= vmin < vmax`: the result is between the two speeds, parallel, and not reversed; at or above the ceiling it has speed `vmax`; at or below the floor it has speed `vmin`; strictly between, it is unchanged |
| CasosSimulacion.Advance | modules/casos_simulacion.py:98-106 | fails exactly on a zero pre-clamp speed that a branch divides by; otherwise the position advances by `dt` times the new velocity, only the state changes, and the speed is within the boid's bounds |
| CasosSimulacion.AdvanceClamps | modules/casos_simulacion.py:98-106 | the new velocity is the clamp, with the boid's floor and ceiling, of `v + wa·ai + ws·si + wc·ci + wb·border + wr·noise` |
| CasosSimulacion.UpdateAsWritten | modules/casos_simulacion.py:27-106 | the update as written, with the aliased steering, keeps the constants and boxes, and a successful result is within the speed bounds |
| CasosSimulacion.UpdateAsWrittenClamps | modules/casos_simulacion.py:27-106 | the update as written fails exactly at a zero pre-clamp speed a branch divides by; otherwise the new velocity is the clamp of the pre-clamp velocity built from the aliased steering, and the position advances by `dt` times it |
| CasosSimulacion.Update | modules/casos_simulacion.py:27-106 | the corrected update, with the intended steering: the same failure condition, clamp of the pre-clamp velocity, integration, kept constants and speed bounds as `UpdateAsWritten` |
| CasosSimulacion.DefaultSpeedBounds | modules/casos_simulacion.py:7-8 | with the built-in constants, the update fails only at pre-clamp speed zero, and otherwise the squared speed is between 25 and 225 |
| CasosSimulacion.AsWrittenSpeedBounds | modules/casos_simulacion.py:99-104 | with floor 5 and ceiling 15, the update as written fails only at pre-clamp speed zero, and otherwise the squared speed is between 25 and 225 |
| CasosSimulacion.NewBoidSpeedBounds | modules/casos_simulacion.py:3-25 | a boid fresh from the constructor, updated as written, ends at a squared speed between 25 and 225 whenever the update succeeds |
| CasosSimulacion.Visit | main.py:103-104 | updating one boid of the flock in place, as written, keeps its constants and boxes and puts its speed within its bounds |
| CasosSimulacion.Sweep | main.py:101-104 | sequential in-place updates as written, in a given order, keep the flock's length and every boid's constants; boids the order never names are untouched; every named boid ends within its speed bounds |
| CasosSimulacion.SweptStep | main.py:103-104 | updating the first boid of the order and then sweeping the rest is a sweep of the whole order |

## Left out

- Rendering and event loops are I/O:
  - the matplotlib figure and animation of `gordo.py`;
  - the pygame window, drawing and console menu of `main.py`.
- Random draws become parameters rather than a modelled generator:
  - the noise draw is the parameter `u`;
  - the sweep's random permutation is the parameter `order`;
  - `gordo.py`'s random initial heading and random flock are not modelled. `Boid.__init__` of `gordo.py` only stores its arguments and that heading.
- `crear_caso` holds scenario fixtures, including a random one. It is not part of this model.
- Floating point is not modelled: rounding, NaN and infinity. Arithmetic is exact over `real`. A division by a zero speed in the casos clamp becomes `None`; the source would produce NaN.
- The border validation in `main.py` belongs to its pygame setup. It is not part of this model.
- Per-boid world extents in `gordo.py` are modelled as one flock-wide `World`. The script gives every boid the same extents, so a flock with mixed extents never arises there.
- The casos world box is stored by the constructor but never read by the update. The model stores it and proves it unchanged.
- Gordo.LimitSpeed: requires a non-negative ceiling. The source accepts any `velocidad_max`, but the only value ever used is 10.
- Gordo.UpdateState: requires a non-negative ceiling, for the same reason as `LimitSpeed`.
- CasosSimulacion.Separation: its contract bounds the length of the sum rather than restating each unit vector.
- CasosSimulacion.Sweep: a failed update ends the sweep with `None`. The source would carry NaN into the remaining updates.

## Findings

| source | as written | input that shows it | evidently intended | confidence | as-written member | corrected member |
|---|---|---|---|---|---|---|
| modules/casos_simulacion.py:52-62 | the cohesion loop adds `x_j − x` into `diferencias_separacion`, and the cohesion accumulator it then divides is never written, so `ci` is always zero and `si` absorbs the raw differences | a boid at the origin and another at `(2, 0)`, with the default radii `rhos = 1.5` and `rhoc = 4`: the code gives `si = (2, 0)` and `ci = (0, 0)` | separation and cohesion in separate accumulators: `si = (0, 0)`, `ci = (1, 0)`, the centroid minus own position | high, not executed | CasosSimulacion.SteeringAsWritten, CasosSimulacion.AliasedCohesionCounterexample | CasosSimulacion.IntendedSteering, CasosSimulacion.Update |
