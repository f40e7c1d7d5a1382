# babylon-boids flock core in Dafny

This project models the flocking core of babylon-boids (`boids.js`). A
`Boid` holds an id, a position, a velocity and the force last applied to it.
A `BoidsManager` owns the list of boids and several pieces of state:

- five tunable coefficients: cohesion, separation, alignment, the
  separation distance and the maximum speed;
- a bounding box;
- the per-frame centre of mass and mean velocity;
- a list of extra force callbacks.

Each frame, `update(deltaTime)` first recomputes the centre and the mean
velocity (`_updateCenter`). Then, boid by boid in list order, it:

1. adds up four steering forces: cohesion, separation, alignment and
   boundaries;
2. stores that sum as the boid's force;
3. adds force times `deltaTime` to the velocity;
4. clamps the velocity to the maximum speed;
5. moves the position by velocity times `deltaTime`.

The model is organised by the program's structure:

- `vectors.dfy` (module `Vectors`): the part of Babylon's `Vector3` the flock
  uses. Vectors are values over exact reals. The in-place operations
  (`addInPlace`, `scaleInPlace`, `copyFrom`) become reassignments of the
  field that holds the vector. The square root inside `length()` is a
  parameter `sqrt`, constrained by `IsSqrt` to return the non-negative
  root.
- `rules.dfy` (module `Rules`): the four steering rules and the speed clamp,
  as pure functions of a boid's state (`BoidState`) and the manager's
  settings (`Params`).
- `aggregates.dfy` (module `Aggregates`): the mean position and mean
  velocity of `_updateCenter`, as left folds in list order. It also proves
  what those means imply for cohesion and alignment.
- `turns.dfy` (module `Turns`): the boid loop of `update` as a function.
  - `Turn` is one boid's turn on the list as it stands.
  - `AfterTurns(s, k, …)` is the flock after the first `k` boids have
    taken their turn.
  - The lemmas say what each boid sees at its turn and what it ends with.
- `boids.dfy` (module `Flock`): the two classes.
  - `Boid` has mutable `position`, `velocity` and `force` fields.
  - `BoidsManager` has the coefficient, bound, centre, callback and boid
    list fields.
  - Its constructor, `UpdateCenter`, `Update` (split into `MoveBoids` and
    `TakeTurn`) and `AddForce` are imperative methods. Each is proved
    against the functions above.
- `scenarios.dfy` (module `Scenarios`): flocks of two taken through a whole
  update.

Behaviour of the code worth knowing, which the model keeps as written:

- **The update loop depends on the order of the list.** A boid's separation
  reads the live list: it sees the new positions of the boids that moved
  before it in the same frame, and the old positions of the boids after it.
  Only the centre and the mean velocity are computed once per frame.
  - `Turns.TurnSees` and `Turns.FinalBoid` state exactly what each boid
    sees.
  - `Scenarios.UpdateIsOrderDependent` is a concrete pair where the second
    boid stores force zero, while against the list as it stood before the
    frame it would get (2,0,0).
- **Extra forces do not reach the boid.** `f.add(forceCallback(...))` at
  boids.js:87 uses Babylon's `add`, which returns a new vector that is then
  dropped. The callbacks are called, but the stored force is exactly the
  sum of the four rules.
- **Nothing is validated.**
  - A negative `total` gives an empty flock.
  - A negative `deltaTime` is accepted.
  - `maxSpeed` and `separationMinDistance` are not checked. With a
    negative maximum speed the clamp compares against its square, so the
    bound `|v|² ≤ maxSpeed²` still holds (`Turns.UpdateBoundsSpeed`), but
    a clamped velocity is reversed.
- **The boundary thresholds scale the bounds about the origin** (`0.9 *
  boundsMin.x`), not about the centre of the box. For a box away from the
  origin, even a boid at the exact centre is pushed
  (`Rules.BoundaryPushesAtOffCentreCentre`).

## Model

| member | source | states |
|---|---|---|
| Vectors.LengthSquared | boids.js:96 | the squared length is never negative and is zero exactly for the zero vector |
| Vectors.Length | boids.js:149 | the distance used by separation is non-negative and zero exactly for the zero vector |
| Vectors.LengthSquares | boids.js:96-97 | the length squared equals `lengthSquared`, tying the clamp's test to the length used when rescaling |
| Vectors.LengthOnAxis | boids.js:148-149 | a displacement along one axis has the absolute value of its component as length |
| Vectors.Normalize | boids.js:97 | `normalize` keeps the zero vector; any other vector gets length one, and scaling it back by the old length gives the old vector |
| Rules.CentreMass | boids.js:131-134 | the cohesion force never points away from the centre (non-negative coefficient); it is zero exactly when the coefficient is zero or the boid is at the centre |
| Rules.MatchVelocity | boids.js:161-164 | the alignment force never points away from the mean velocity; it is zero exactly when the coefficient is zero or the boid already moves with the mean |
| Rules.Neighbours | boids.js:144-152 | the repelling boids are exactly the list members with another id that are strictly closer than the separation distance |
| Rules.SeparationSumIsNeighbourPushes | boids.js:140-155 | the separation loop (`SeparationSum`, a left fold over the list) adds exactly the weighted pushes `v * (min - d)` of the repelling neighbours, in list order; itself and boids at or beyond the distance add nothing |
| Rules.SeparationIsNeighbourPushes | boids.js:140-155 | `_forceSeparation` (`Separation`) is the plain sum of the pushes `v * (min - d)` of exactly the repelling neighbours, scaled by the separation coefficient |
| Rules.SeparationWithoutNeighbours | boids.js:144-154 | with no other boid strictly within the separation distance the separation force is zero |
| Rules.PushPointsAway | boids.js:148-151 | each neighbour's push points away from that neighbour |
| Rules.PairSums | boids.js:144-153 | on a list of two distinct boids each one's separation sum is its one weighted push when the other is within the distance, zero otherwise |
| Rules.SeparationPairOpposite | boids.js:140-155 | on the two-element list `[a, b]` of two distinct boids, the separation forces on `a` and on `b` are opposite |
| Rules.BoundaryAxis | boids.js:174-178 | on one axis: +0.2 exactly when below 0.9 times the lower bound, -0.2 exactly when not below it and above 0.9 times the upper bound, 0 exactly otherwise |
| Rules.Boundaries | boids.js:170-190 | each component is +0.2, 0 or -0.2: +0.2 exactly below 0.9 times that axis's lower bound, -0.2 exactly when not below it and above 0.9 times the upper bound, 0 exactly otherwise; inside the box scaled by 0.9 the force is zero |
| Rules.BoundaryDeadZone | boids.js:174-188 | inside the box scaled by 0.9 there is no boundary force |
| Rules.BoundaryPushesAtOffCentreCentre | boids.js:174-188 | the thresholds scale about the origin: a boid at the centre of a box of radius 100 around (1000,1000,1000) is pushed by -0.2 on every axis |
| Rules.ClampSpeed | boids.js:96-98 | the clamped velocity is never faster than the maximum speed; a velocity within it is kept; a faster one has squared length `maxSpeed²` and is the velocity rescaled by `maxSpeed/|v|` |
| Rules.RescaledToSpeed | boids.js:97 | normalising then scaling by the maximum speed gives squared length `maxSpeed²` and the velocity rescaled by `maxSpeed/|v|` |
| Aggregates.Mean | boids.js:120-121 | the mean (the sum scaled by one over the count) scaled back by the count gives the sum |
| Aggregates.SumVecAppend | boids.js:115-118 | one more step of the accumulation loop (`SumVec`) adds the next vector to the running sum |
| Aggregates.SumOfConstant | boids.js:115-118 | accumulating n copies of one vector gives that vector scaled by n |
| Aggregates.MeanOfConstant | boids.js:115-121 | the mean of copies of one vector is that vector |
| Aggregates.PullsToMeanCancel | boids.js:120-121 | pulls of every entry towards the mean of the entries add up to zero |
| Aggregates.CohesionBalances | boids.js:131-134 | the cohesion forces against the flock's own mean position sum to zero over the flock |
| Aggregates.AlignmentBalances | boids.js:161-164 | alignment against the flock's own mean velocity sums to zero over the flock |
| Aggregates.SingleBoidSteersNowhere | boids.js:108-125 | for a flock of one, cohesion and alignment against the recomputed aggregates are both zero |
| Turns.NetForceWithoutSteering | boids.js:79-89 | the net force (`NetForce`, the sum of the four rules with nothing added by callbacks) is only the boundary push when the three steering coefficients are zero |
| Turns.Turn | boids.js:79-100 | a turn keeps the boid's id and leaves it no faster than the maximum speed |
| Turns.UnclampedTurn | boids.js:92-100 | when the new velocity is within the maximum speed the boid stores the force, takes velocity plus force times dt unclamped, and moves by that velocity times dt |
| Turns.AfterTurns | boids.js:78-101 | the loop keeps the number of boids |
| Turns.AfterTurnsShape | boids.js:78-101 | part way through the loop every boid keeps its id, boids still waiting are untouched, and every boid that has moved is within the maximum speed |
| Turns.SettledAfterTurn | boids.js:78-101 | a boid that has taken its turn is not changed by later turns |
| Turns.TurnSees | boids.js:78-101 | at its turn boid j sees the final states of the boids before it and the original states of itself and the boids after it |
| Turns.FinalIsTurn | boids.js:78-101 | a boid's final state is its turn taken on the list `TurnSees` describes |
| Turns.FinalBoid | boids.js:79-100 | after an update each boid's force is cohesion + separation + alignment + boundaries at its turn (callbacks not added), its velocity is old velocity + force·dt clamped (unchanged by the clamp when within the maximum speed), its position is old position + velocity·dt |
| Turns.UpdateBoundsSpeed | boids.js:95-98 | after an update every boid is within the maximum speed |
| Flock.Jitter | boids.js:55-57 | a draw in [0,1) minus one half times a non-negative width stays within half the width of the base value; width zero gives the base value |
| Flock.SpawnPosition | boids.js:53-59 | a new boid starts inside the cube of side `initialRadius` around the centre, and exactly at the centre for radius zero |
| Flock.SpawnVelocity | boids.js:60-64 | each component of a new boid's velocity is within a twentieth of the initial speed of the initial velocity |
| Flock.Boid.constructor | boids.js:4-9 | a new boid has the given id, position and velocity and a zero force |
| Flock.BoidsManager.constructor | boids.js:17-68 | the default coefficients; bounds at `center ± boundRadiusScale`; `max(total, 0)` fresh distinct boids, boid i with id i, its jittered position and velocity and zero force; default radius, scale and initial velocity when an argument is left out; no callbacks; centre copied, mean velocity zero |
| Flock.BoidsManager.UpdateCenter | boids.js:108-125 | with no boids the centre and mean velocity are unchanged; otherwise they become the mean position and the mean velocity of the boids |
| Flock.BoidsManager.Update | boids.js:75-103 | the list keeps the same boid objects; the centre and mean velocity are recomputed from the old states; the new states are `AfterTurns` of the old states; every boid ends within the maximum speed |
| Flock.BoidsManager.MoveBoids | boids.js:78-101 | the loop over the boids leaves exactly `AfterTurns` of the states it started from |
| Flock.BoidsManager.TakeTurn | boids.js:79-100 | one turn changes only that boid, and changes it to `Turn` on the list as it stands; callbacks are called and their results dropped |
| Flock.BoidsManager.AddForce | boids.js:197-199 | the callback is appended to the list of extra forces |
| Scenarios.FirstPushBeforeTheFrame | boids.js:144-154 | boids at (0,0,0) and (1,0,0) with separation distance 3: the first one's separation sum is (-2,0,0) |
| Scenarios.SecondPushBeforeTheFrame | boids.js:144-154 | in the same pair the second one's separation sum is (2,0,0) |
| Scenarios.SecondPushAfterTheFirstTurn | boids.js:144-154 | once the first boid is at (-2,0,0) the second is exactly 3 away and its separation sum is zero (strict comparison) |
| Scenarios.OnlySeparation | boids.js:79-83 | with only separation switched on, inside the dead zone, the net force is the separation sum |
| Scenarios.SeparationFirstTurn | boids.js:79-100 | under separation alone the first boid of the pair is pushed by (-2,0,0) and moves to (-2,0,0) |
| Scenarios.AfterTheFirstTurn | boids.js:78-101 | after the first turn the list holds the moved first boid and the untouched second one |
| Scenarios.SecondTurnForce | boids.js:79-83 | at its turn the second boid feels no force |
| Scenarios.SecondForceBeforeTheFrame | boids.js:79-83 | against the list as it stood before the frame the second boid would be pushed by (2,0,0) |
| Scenarios.FirstOfTwo | boids.js:78-101 | in a flock of two, after the first turn the list holds the first boid's new state and the second boid as it was |
| Scenarios.LastOfTwo | boids.js:78-101 | in a flock of two whose first turn left `[a1, s[1]]`, the update ends with `a1` first and stores on the second boid the force computed on `[a1, s[1]]` |
| Scenarios.UpdateIsOrderDependent | boids.js:78-101 | a whole update of the pair: the first boid ends at (-2,0,0), the second stores force zero, although against the snapshot it would get (2,0,0) |
| Scenarios.CohesionOnlyForce | boids.js:79-83 | with only cohesion switched on at coefficient 1, inside the dead zone, the net force is the displacement to the centre |
| Scenarios.RestingBoidReachesCentre | boids.js:79-100 | a boid at rest pulled by cohesion alone with time step 1, within the maximum speed, lands on the centre |
| Scenarios.TwoBoidsMeetAtCentre | boids.js:75-101 | under cohesion alone two boids at rest, inside the dead zone and within the maximum speed of their centre, both land on that centre after one update with time step 1, each pushed by its displacement to it |

## Left out

- Debug helpers (`debug` state, `showDebug`, `hideDebug`, `_updateDebug`, boids.js:36-41, 102, 205-292) and the GUI panel (`gui`, boids.js:298-360): rendering only. They do not change the boids.
- The `orientation` getter (boids.js:11-13): rendering only. Babylon's `normalize` works in place, so calling the getter also normalises the boid's velocity. That side effect is not modelled.
- `Math.random`: the draws of the constructor are the parameters `positionJitter` and `velocityJitter`, one vector per boid. `Jitter`, `SpawnPosition` and `SpawnVelocity` state their bounds for draws in [0, 1).
- Flock.BoidsManager.constructor: `total` is an integer. In the code the loop `i < total` also accepts a fractional count, giving its ceiling in boids.
- Floating point: vectors are exact reals. Rounding, overflow, NaN and infinities are not modelled.
- `Math.sqrt` inside Babylon's `length()`: a parameter `sqrt` constrained to be the non-negative square root.
- Flock.BoidsManager.TakeTurn: the extra force callbacks are modelled as functions of the manager's settings and the boid's state (`(Params, BoidState) -> Vec`). They cannot change the manager or the boids, so a callback's side effects are not modelled; their results are dropped, as in the code.
- Flock.BoidsManager.Update: requires that no boid object appears twice in the list (`Valid`). The constructor establishes this, and no modelled operation adds boids. The code exposes `boids` as a public array, and duplicates pushed from outside are not modelled.
- Babylon's `normalize` on a vector of length zero leaves it unchanged. The model keeps that, although the clamp never normalises a zero vector.
- Aggregates.CohesionBalances: only the forces are balanced. Each velocity is then clamped on its own, and the flock also drifts with its mean velocity, so the centre of mass can still move under cohesion alone.
- Long-run behaviour over many frames (convergence of the flock, staying inside the bounds) is not proved. Only single updates are specified.
