# paperjs-flocking: the per-frame flocking engine in Dafny

This project models the flocking engine of paperjs-flocking, a Paper.js
take on chapter 6 of Shiffman's *Nature of Code*, and proves properties of
that model. A **boid** has a kinematic state (position, velocity,
acceleration) and tuned parameters. On every frame it does three things:

- it computes separation, alignment, cohesion and mouse-avoidance steering
  vectors, weights them and adds them to its acceleration;
- it integrates its motion, clamping its speed;
- it wraps around the borders of the view.

A **flock** owns the ordered list of boids and runs them in index order.
Some snapshots of the flock also rebuild a symmetric table of pairwise
distances.

The repository keeps five snapshots of this engine. Each is modelled as
written; they are not reconciled with each other.

| snapshot | module | what is particular to it |
|---|---|---|
| flocking-combined.js and flocking-min.js | `Flocking` (objects), `SinglePass` (specification) | one loop over the boid's row of the distance table; forces weighted by `weight / mass`. The two files are the same code (`flock` is called `flockStep` in the minified one). 80 boids. |
| boid.js, driven by flock.js | `BoidJs`, `FlockJs`, `FourLoop` (specification, no falloff) | `separate`, `alignment` and `cohesion` each loop over all boids and compute distances from the boid's own position; plain weights, no mass. flock.js rebuilds a table of **squared** distances on every `frameSkip`-th frame only, and counts frames for its performance measurement. |
| app-combined.js | `AppCombined`, `FourLoop` (specification, with falloff) | the four-loop boid with noisy parameters and a mass; `avoid` multiplies by the falloff `1 - |ap| / avoidDistance` before normalising; a flock without a table; 60 boids. |

Shared modules:

- `Vectors` holds the 2-D vector arithmetic of Paper.js points. Vector length is an uninterpreted function `Length`. The ghost predicate `LengthLaw()` states that `Length` is non-negative and that its square is `x² + y²`; every property about lengths takes `LengthLaw()` as a precondition. `Normalize(v, len)` turns a non-zero `v` into a vector of length `len` and leaves the zero vector alone. `Limit` is the `if (v.length > max) v = v.normalize(max)` clamp.
- `DistanceTable` holds the nested loop that fills the pairwise table, and `Table`, the function it is proved against.
- `Steering` holds the per-boid formulas the snapshots share: `addNoise`, `seek`, the neighbour counts and sums, the post-loop results, `avoid`, `update` and `borders`.
- `BoidLoop` holds the flock's loop: boid `i` takes its step and sees the boids `0..i-1` already moved.
- `Perimeter` holds the start positions that `startPaper` picks on the perimeter of the view.

Every imperative method is proved against a specification function. For
example, `Flocking.Flock.Run` ends with
`Kins(boids) == SinglePass.Sweep(old(Kins(boids)), ...)`, and the lemmas
about `Sweep`, `Step` and `Table` state what the source promises:

- every boid is stepped exactly once, in index order;
- speed stays within `maxSpeed`;
- positions stay within the wrap margin;
- the table is symmetric, has a zero diagonal and covers every pair.

The `Flocking` rows of the table below cite flocking-combined.js. The same
code sits in flocking-min.js at these lines:

| code | flocking-combined.js | flocking-min.js |
|---|---|---|
| `Boid` constructor | 44-91 | 5-35 |
| `run` | 121-126 | 57-62 |
| `update` | 128-142 | 64-74 |
| `seek` | 144-158 | 76-88 |
| `borders` | 160-167 | 90-98 |
| `flock` / `flockStep` | 177-283 | 105-186 |
| the loop of `flock` | 194-219 | 116-136 |
| `Flock.addBoid` | 302-305 | 198-201 |
| `Flock.run` | 307-325 | 203-218 |
| `updateMouse` | 327-329 | 220-222 |
| `startPaper` | 339-367 | 226-244 |

Inputs the source takes from the browser are parameters here:

- each value of `Math.random()` is a parameter in `[0, 1)`;
- `view.viewSize` is the pair `width`, `height`;
- the mouse point is a parameter of `updateMouse`.

## Model

| member | source | states |
|---|---|---|
| Vectors.LengthZero | assets/javascript/boid.js:178-188 | a vector has length 0 exactly when it is `(0, 0)`, which is what `steer.length > 0` tests |
| Vectors.NormalizeLength | assets/javascript/boid.js:126-127 | `normalize(len)` yields length `len` for a non-zero vector and leaves the zero vector at length 0 |
| Vectors.LimitBound | assets/javascript/boid.js:111-114 | the clamp `if (length > max) normalize(max)` never leaves a vector longer than `max` |
| Vectors.NormalizeScaled | assets/javascript/app-combined.js:303-305 | normalising after scaling by a positive factor gives the same vector as normalising directly |
| Vectors.DistanceSymmetric | assets/javascript/flocking-combined.js:314-318 | `getDistance` is symmetric and is 0 from a point to itself |
| Vectors.DistanceSqIsSquare | assets/javascript/flock.js:55 | `getDistance(q, true)` is the square of `getDistance(q)` |
| DistanceTable.Rebuild | assets/javascript/flocking-combined.js:311-319 | the nested loop yields one full row per boid (0 on the diagonal, the distance elsewhere) and keeps any older rows beyond the flock |
| DistanceTable.FillRow | assets/javascript/flocking-combined.js:314-318 | the inner loop for row `i` fills columns `0..i-1` of row `i` and column `i` of rows `0..i-1`, and leaves the later rows untouched |
| DistanceTable.FilledIsTable | assets/javascript/flocking-combined.js:311-319 | once rows `0..l-1` hold columns `0..l-1`, the table is exactly `Table` |
| DistanceTable.TableCovers | assets/javascript/flocking-min.js:204-213 | every boid has a row, and every row has an entry for every boid |
| DistanceTable.TableSymmetric | assets/javascript/flocking-combined.js:311-319 | `distances[i][i] == 0` and `distances[i][j] == distances[j][i]` for all boids `i`, `j` |
| DistanceTable.TableIsDistance | assets/javascript/flock.js:50-59 | entry `[i][j]` is the distance between boids `i` and `j`; in the squared table it is the squared distance, that is, the square of the distance |
| DistanceTable.TableIdempotent | assets/javascript/flocking-min.js:204-213 | rebuilding the table from the same positions changes nothing |
| Steering.AddNoiseRange | assets/javascript/app-combined.js:112-114 | for `p > 0`, `f > 0` and `u` in `[0, 1)`, `addNoise` lies in `(p(1-f), p(1+f)]` |
| Steering.AddNoisePositive | assets/javascript/flocking-combined.js:117-119 | with `0 < f < 1`, a noisy positive parameter stays positive |
| Steering.SteerBound | assets/javascript/flocking-combined.js:150-155 | the Reynolds steering `desired - velocity`, clamped, is at most `maxForce` long |
| Steering.SeekBound | assets/javascript/flocking-combined.js:144-158 | `seek` is at most `maxForce` long; when the clamp does not apply, seek plus velocity equals the desired velocity `normalize(target - position, maxSpeed)`, which has length `maxSpeed` when the target is not the position |
| Steering.CountIsNeighbours | assets/javascript/flocking-combined.js:194-219 | each count is the number of boids `j` with `0 < d_j < radius`; a boid at distance 0, such as the boid itself, is never counted |
| Steering.NoNeighbourSums | assets/javascript/boid.js:160-172 | with no boid in range, the accumulated sums stay `(0, 0)` |
| Steering.SumsAgree | assets/javascript/flocking-min.js:116-136 | two rows that agree about the boids in range give the same counts and sums |
| Steering.ResultsBound | assets/javascript/flocking-combined.js:223-251 | with count 0, the separation, alignment and cohesion results are `(0, 0)`; otherwise each is at most `maxForce` long |
| Steering.SeparationFourLoopZero | assets/javascript/boid.js:173-188 | four-loop `separate` returns `(0, 0)` when the averaged vector has length 0, in particular when nothing was summed |
| Steering.SeparationFourLoopBound | assets/javascript/boid.js:178-188 | four-loop `separate` is at most `maxForce` long |
| Steering.SeparationVersionsDiffer | assets/javascript/flocking-combined.js:224-234 | when neighbours' repulsions cancel, the single-pass separation is the clamped `-velocity`, while boid.js:179 makes the four-loop one `(0, 0)` |
| Steering.FalloffCancels | assets/javascript/app-combined.js:297-305 | the falloff factor is positive inside the range and the vector is normalised afterwards, so `avoid` with falloff equals `avoid` without it |
| Steering.AvoidBound | assets/javascript/boid.js:248-263 | `avoid` is `(0, 0)` at distance `>= avoidDistance` and when the mouse is on the boid; otherwise it is at most 1 long |
| Steering.AccumulateSum | assets/javascript/boid.js:93-103 | the acceleration grows by exactly the weighted sum of the four forces; zero forces leave it as it was |
| Steering.IntegrateBound | assets/javascript/flocking-combined.js:128-142 | after `update`, speed is at most `maxSpeed`, position is the old position plus the new velocity, and acceleration is `(0, 0)`; a velocity already within the limit is not clamped |
| Steering.WrapCoord | assets/javascript/flocking-combined.js:160-167 | below `-r` a coordinate goes to `dim + r`, above `dim + r` it goes to `-r`, in `[-r, dim + r]` it is unchanged, and afterwards it lies in `[-r, dim + r]` |
| SinglePass.NewProfileSane | assets/javascript/flocking-combined.js:49-91 | the constructor's noisy parameters are sane, `maxSpeed` lies in `(1.6·0.65, 1.6·1.35]` and the mass in `(0.65, 1.35]` |
| SinglePass.ForcesBound | assets/javascript/flocking-combined.js:223-267 | separation, alignment and cohesion are at most `maxForce` long; avoidance is at most 1 long |
| SinglePass.NoInfluence | assets/javascript/flocking-combined.js:223-282 | with no neighbour in any radius and the mouse out of range, `flock` leaves the acceleration unchanged |
| SinglePass.StepBound | assets/javascript/flocking-combined.js:121-126 | after its step a boid is within its speed limit, has zero acceleration and lies inside the wrap margin |
| SinglePass.SweepNext | assets/javascript/flocking-combined.js:322-324 | one turn of the loop changes boid `i` alone, and changes it by its step |
| SinglePass.SweepBound | assets/javascript/flocking-min.js:215-217 | after the loop every boid is within its speed limit, has zero acceleration and lies inside the wrap margin |
| SinglePass.SinglePassMatchesDistances | assets/javascript/flocking-combined.js:194-219 | when the row holds the distances from the boid to every boid, the single loop gives the same three counts and sums that loops over freshly computed distances give |
| FourLoop.FalloffForcesEqual | assets/javascript/app-combined.js:291-309 | the app-combined.js forces equal the boid.js forces: the falloff makes no difference |
| FourLoop.ForcesBound | assets/javascript/boid.js:154-263 | `separate`, `alignment` and `cohesion` are at most `maxForce` long; `avoid` is at most 1 long |
| FourLoop.NoInfluence | assets/javascript/boid.js:84-104 | with no other boid within any radius and the mouse out of range, `flock` leaves the acceleration unchanged |
| FourLoop.StepBound | assets/javascript/boid.js:72-77 | after `run` a boid is within its speed limit, has zero acceleration and lies inside the wrap margin |
| FourLoop.SweepNext | assets/javascript/app-combined.js:333-335 | one turn of the loop changes boid `i` alone, and changes it by its step |
| FourLoop.SweepBound | assets/javascript/app-combined.js:332-336 | after the loop every boid is within its speed limit, has zero acceleration and lies inside the wrap margin |
| FourLoop.NoisyProfileSane | assets/javascript/app-combined.js:46-86 | the noisy parameters are sane, `maxSpeed` lies in `(3·0.65, 3·1.35]`, `maxForce` in `(0.1·0.65, 0.1·1.35]` and the mass in `(0.65, 1.35]` |
| BoidLoop.SweepUpTo | assets/javascript/flocking-min.js:215-217 | running boids `0..m-1` keeps the number of boids |
| BoidLoop.SweepLeavesRest | assets/javascript/flocking-min.js:215-217 | boids the loop has not reached yet are untouched |
| BoidLoop.FrameCountAppend | assets/javascript/flocking-combined.js:372-374 | the frames of `e1 + e2` are the frames of `e1` plus the frames of `e2` |
| SinglePass.ReplayAppend | assets/javascript/flocking-combined.js:372-378 | delivering `e1` and then `e2` leaves the flock as delivering `e1 + e2` does |
| SinglePass.ReplayMouse | assets/javascript/flocking-combined.js:376-378 | after any sequence of events the mouse point is the last point the mouse moved to (`LastMouse`), or the old one when it did not move |
| SinglePass.ReplayBound | assets/javascript/flocking-combined.js:372-378 | whatever mouse moves came before, after a frame every boid is within its speed limit, has zero acceleration and lies inside the wrap margin |
| FourLoop.ReplayAppend | assets/javascript/app-combined.js:383-389 | delivering `e1` and then `e2` leaves the flock as delivering `e1 + e2` does |
| FourLoop.ReplayMouse | assets/javascript/app-combined.js:387-389 | after any sequence of events the mouse point is the last point the mouse moved to (`LastMouse`), or the old one when it did not move |
| FourLoop.ReplayBound | assets/javascript/app-combined.js:383-389 | whatever mouse moves came before, after a frame every boid is within its speed limit, has zero acceleration and lies inside the wrap margin |
| BoidLoop.SweepStepsOnce | assets/javascript/flocking-min.js:215-217 | every boid is stepped exactly once: it still has its original state when its turn comes, and the later steps leave it alone |
| Perimeter.Clamp01 | assets/javascript/app-combined.js:374-375 | `Math.min(1, Math.max(0, z))` lies in `[0, 1]` and is `z` when `z` already does |
| Perimeter.JsRemInRange | assets/javascript/app-combined.js:374-375 | JavaScript `%` by 4 leaves a dividend in `(-4, 4)` unchanged |
| Perimeter.JsRemAbove | assets/javascript/app-combined.js:374-375 | JavaScript `%` by 4 subtracts 4 from a dividend in `[4, 8)` |
| Perimeter.PerimeterPointInFrame | assets/javascript/app-combined.js:363-375 | every start position satisfies `-frame <= x <= width + frame` and `-frame <= y <= height + frame` |
| Perimeter.SideFactorsOnEdge | assets/javascript/app-combined.js:374-375 | on each quarter of `[0, 1)`, one of the two side factors is exactly 0 or 1 |
| Perimeter.PerimeterPointOnEdge | assets/javascript/app-combined.js:363-375 | every start position lies on an edge of the view enlarged by `frame` |
| Flocking.Boid.constructor | assets/javascript/flocking-combined.js:44-91 | the parameters are `addNoise` of the written constants over the eleven draws, in draw order; the start velocity is `0.25·maxSpeed·(1 - 2u)` in each coordinate; acceleration is zero; the boid is sane |
| Flocking.Boid.Run | assets/javascript/flocking-combined.js:121-126 | the new state is `SinglePass.Step` of the old one, with the boid's own row of the table |
| Flocking.Boid.Gather | assets/javascript/flocking-combined.js:194-219 | the loop's three sums and counts are `SepSum`, `SumNear` and `CountNear` over the boid's row |
| Flocking.Boid.Separate | assets/javascript/flocking-combined.js:223-234 | the separation result is `SeparationSinglePass` for a positive count and the untouched sum otherwise |
| Flocking.Boid.Align | assets/javascript/flocking-combined.js:237-245 | the alignment result is `AlignmentResult` |
| Flocking.Boid.Cohere | assets/javascript/flocking-combined.js:248-251 | the cohesion result is `CohesionResult`: it seeks the average position |
| Flocking.Boid.Avoid | assets/javascript/flocking-combined.js:254-267 | the avoidance result is `AvoidFalloff` |
| Flocking.Boid.Update | assets/javascript/flocking-combined.js:128-142 | the new state is `Integrate` of the old one, so speed is at most `maxSpeed` when the boid is sane |
| Flocking.Boid.Seek | assets/javascript/flocking-combined.js:144-158 | returns `Steering.Seek`, at most `maxForce` long for a sane boid |
| Flocking.Boid.Borders | assets/javascript/flocking-combined.js:160-167 | the position becomes `Wrap` of the old one; velocity and acceleration are unchanged |
| Flocking.Boid.Flock | assets/javascript/flocking-combined.js:177-283 | the new acceleration is `SinglePass.Flocked`: each force times `weight / mass` is added; position and velocity are unchanged |
| Flocking.Flock.constructor | assets/javascript/flocking-combined.js:295-300 | an empty flock, with the mouse at `(0, 0)` and an empty table |
| Flocking.Flock.AddBoid | assets/javascript/flocking-combined.js:302-305 | the boid is appended, `l` grows by one and keeps counting the boids |
| Flocking.Flock.Run | assets/javascript/flocking-combined.js:307-325 | the table becomes `Table` of the positions at the start of the frame; the boids become `SinglePass.Sweep` of their old states over that table |
| Flocking.Flock.MoveBoids | assets/javascript/flocking-combined.js:322-324 | the boids' states become `SinglePass.Sweep`: steps in index order, each seeing the boids before it already moved |
| Flocking.Flock.StepBoid | assets/javascript/flocking-combined.js:323 | one iteration advances the sweep by boid `i` and changes no other boid |
| Flocking.Flock.UpdateMouse | assets/javascript/flocking-combined.js:327-329 | the mouse point is replaced; the boids, `l`, the table and the ghost slot map are unchanged, so a valid flock stays valid and `run` can follow |
| Flocking.OnEvent | assets/javascript/flocking-combined.js:372-378 | a frame event runs the flock and a mouse move updates the mouse point; the flock stays valid and its new state is `SinglePass.Handle` of the old one |
| Flocking.Animate | assets/javascript/flocking-combined.js:372-378 | any sequence of frames and mouse moves, in any order, keeps the flock valid and leaves it in the state `SinglePass.Replay` gives |
| Flocking.StartPaper | assets/javascript/flocking-combined.js:339-367 | 80 boids, boid `i` with id `i`, each placed on `PerimeterPoint` of its draw, with its constructor's parameters; the flock is valid |
| BoidJs.Boid.constructor | assets/javascript/boid.js:31-46 | the fixed boid.js parameters (`r = 3`, `maxspeed = 3`, ...), velocity `(2u1 - 1, 2u2 - 1)`, zero acceleration |
| BoidJs.Boid.Run | assets/javascript/boid.js:72-77 | the new state is `FourLoop.Step` of the old one, without falloff |
| BoidJs.Boid.ApplyForce | assets/javascript/boid.js:79-82 | the force is added to the acceleration; position and velocity are unchanged |
| BoidJs.Boid.Flock | assets/javascript/boid.js:84-104 | the new acceleration is `FourLoop.Flocked` with the plain weights and no mass term |
| BoidJs.Boid.Update | assets/javascript/boid.js:106-120 | the new state is `Integrate` of the old one; speed is at most `maxspeed` |
| BoidJs.Boid.Seek | assets/javascript/boid.js:122-136 | returns `Steering.Seek`, at most `maxforce` long |
| BoidJs.Boid.Borders | assets/javascript/boid.js:138-145 | the position becomes `Wrap` of the old one with `r = 3` |
| BoidJs.Boid.Separate | assets/javascript/boid.js:154-189 | the loop's sum over the boids with `0 < d < desiredseparation` gives `SeparationFourLoop`; it is at most `maxforce` long, and `(0, 0)` with no such boid |
| BoidJs.Boid.Alignment | assets/javascript/boid.js:193-219 | `AlignmentResult` of the loop's sum and count; at most `maxforce` long; `(0, 0)` with count 0 |
| BoidJs.Boid.Cohesion | assets/javascript/boid.js:223-244 | `CohesionResult` of the loop's sum and count; at most `maxforce` long; `(0, 0)` with count 0 |
| BoidJs.Boid.Avoid | assets/javascript/boid.js:248-263 | returns `AvoidPlain`: at most 1 long, and `(0, 0)` at distance `>= avoidDistance` |
| FlockJs.RebuildCount | assets/javascript/flock.js:49 | frames `0..k-1` rebuild the table exactly `ceil(k / frameSkip)` times |
| FlockJs.LastRebuild | assets/javascript/flock.js:49-60 | the table that frame `f` sees was rebuilt `f % frameSkip` frames earlier, and with no rebuild since |
| FlockJs.CounterWraps | assets/javascript/flock.js:73-82 | `performanceCounter` stays in `[0, framesPerMeasurement)` and advances modulo it |
| FlockJs.CountAfterIsMod | assets/javascript/flock.js:73-82 | after `k` frames the performance counter is `k % framesPerMeasurement` |
| FlockJs.Flock.constructor | assets/javascript/flock.js:11-34 | an empty flock with `frameSkip == 4` (3, then incremented), `framesPerMeasurement == 50` and both counters 0 |
| FlockJs.Flock.AddBoid | assets/javascript/flock.js:36-39 | the boid is appended, `l` counts the boids, and every other field is unchanged |
| FlockJs.Flock.Run | assets/javascript/flock.js:41-87 | the squared table is rebuilt exactly when `frameCounter % frameSkip == 0` and is otherwise unchanged; the boids become `FourLoop.Sweep` of their old states; `frameCounter` grows by 1; the performance counter advances and wraps |
| FlockJs.Flock.CountFrame | assets/javascript/flock.js:67-82 | `frameCounter` grows by 1, the performance counter advances and wraps, and nothing else changes |
| FlockJs.Flock.MoveBoids | assets/javascript/flock.js:63-65 | the boids' states become `FourLoop.Sweep`, in index order |
| FlockJs.Flock.StepBoid | assets/javascript/flock.js:64 | one iteration advances the sweep by boid `i` and changes no other boid |
| FlockJs.OnEvent | assets/javascript/flock.js:41-91 | a frame calls `run` and a mouse move calls `updateMouse`; the flock stays valid, the frame counter grows by the number of frames, and the boids and mouse become `FourLoop.Handle` of the old ones, without falloff |
| FlockJs.Animate | assets/javascript/flock.js:41-91 | any sequence of frames and mouse moves keeps the flock valid, adds the number of frames to `frameCounter`, keeps `frameSkip` and `framesPerMeasurement`, and leaves the boids and mouse as `FourLoop.Replay` gives |
| FlockJs.Flock.UpdateMouse | assets/javascript/flock.js:89-91 | the mouse point is replaced; every other field, including the ghost slot map, is unchanged, so a valid flock stays valid and `run` can follow |
| AppCombined.Boid.constructor | assets/javascript/app-combined.js:41-86 | the parameters are `addNoise` of the written constants over the eleven draws; `mass` is `NoisyMass`; the start velocity is `0.25·maxspeed·(1 - 2u)` in each coordinate; the boid is sane |
| AppCombined.Boid.Run | assets/javascript/app-combined.js:116-121 | the new state is `FourLoop.Step` of the old one, with the falloff |
| AppCombined.Boid.ApplyForce | assets/javascript/app-combined.js:123-125 | the force is added to the acceleration |
| AppCombined.Boid.Flock | assets/javascript/app-combined.js:127-147 | the new acceleration is `FourLoop.Flocked` with the weights divided by the mass |
| AppCombined.Boid.Update | assets/javascript/app-combined.js:149-163 | the new state is `Integrate` of the old one; speed is at most `maxspeed` |
| AppCombined.Boid.Seek | assets/javascript/app-combined.js:165-179 | returns `Steering.Seek`, at most `maxforce` long |
| AppCombined.Boid.Borders | assets/javascript/app-combined.js:181-188 | the position becomes `Wrap` of the old one, with in-range coordinates unchanged |
| AppCombined.Boid.Separate | assets/javascript/app-combined.js:197-232 | `SeparationFourLoop` of the loop's sum over the boids with `0 < d < desiredseparation`; at most `maxforce` long; `(0, 0)` with no such boid |
| AppCombined.Boid.Alignment | assets/javascript/app-combined.js:236-262 | `AlignmentResult` of the loop's sum and count; at most `maxforce` long; `(0, 0)` with count 0 |
| AppCombined.Boid.Cohesion | assets/javascript/app-combined.js:266-287 | `CohesionResult` of the loop's sum and count; at most `maxforce` long; `(0, 0)` with count 0 |
| AppCombined.Boid.Avoid | assets/javascript/app-combined.js:291-309 | returns `AvoidFalloff`, which equals `AvoidPlain`: at most 1 long, and `(0, 0)` outside `avoidDistance` |
| AppCombined.Flock.constructor | assets/javascript/app-combined.js:321-325 | an empty flock with the mouse at `(0, 0)` |
| AppCombined.Flock.AddBoid | assets/javascript/app-combined.js:327-330 | the boid is appended and `l` counts the boids |
| AppCombined.Flock.Run | assets/javascript/app-combined.js:332-336 | the boids become `FourLoop.Sweep` of their old states, with the falloff, in index order |
| AppCombined.Flock.StepBoid | assets/javascript/app-combined.js:334 | one iteration advances the sweep by boid `i` and changes no other boid |
| AppCombined.Flock.UpdateMouse | assets/javascript/app-combined.js:338-340 | the mouse point is replaced; the boids, `l` and the ghost slot map are unchanged, so a valid flock stays valid and `run` can follow |
| AppCombined.OnEvent | assets/javascript/app-combined.js:383-389 | a frame event runs the flock and a mouse move updates the mouse point; the flock stays valid and its new state is `FourLoop.Handle` of the old one, with the falloff |
| AppCombined.Animate | assets/javascript/app-combined.js:383-389 | any sequence of frames and mouse moves, in any order, keeps the flock valid and leaves it in the state `FourLoop.Replay` gives |
| AppCombined.StartPaper | assets/javascript/app-combined.js:350-378 | 60 boids, each on `PerimeterPoint` of its draw and with `NoisyProfile` of its constructor's draws; the flock is valid |

## Left out

- Drawing is not modelled. This covers `render`, the arrow built from `Group`/`Path`/`rotate`/`strokeColor` in every constructor, and `velocity.angle`: Paper.js drawing has no effect on the simulation.
- Browser start-up is not modelled: `paper.install`, `paper.setup`, `addOnloadListener`, the global `flock`, and assets/javascript/sketch.js. `StartPaper` builds the flock. The handlers `view.onFrame` and `view.onMouseMove` are `OnEvent`, and the browser's stream of events is a sequence given to `Animate`; the browser's scheduling of events is not modelled.
- FlockJs.Animate: states the boids, the mouse point and `frameCounter` after the events, but not the table, and of `performanceCounter` only that it stays in range. For each single frame, FlockJs.Flock.Run states both exactly.
- `Math.random()` is not modelled: every draw is a parameter in `[0, 1)`. `view.viewSize` is the pair `width`, `height`.
- Timing is not modelled in flock.js: `performance.now()`, `startTime`, `endTime`, `totalTime`, the efficiency formula and `console.log` are timing and output. The performance counter and its wrap are kept. `measurePerformance` is always `true` there, so the counter branch is modelled as taken.
- Floating point is not modelled: arithmetic is on `real`. Vector length is the uninterpreted `Length`, constrained only by `LengthLaw()`, and square roots and IEEE rounding are not captured.
- Paper.js `Point` semantics appear only as assumptions, since that library is not part of this model: `normalize` of the zero vector yields the zero vector; `getDistance(q, true)` is the squared distance; `divide` by a count is componentwise.
- The squared table of flock.js is built and proved correct. It has no effect on motion, because boid.js's `run` takes only the boids and the mouse and ignores the table flock.js passes it, so radii are never compared against squared distances.
- FlockJs.Flock.AddBoid, Flocking.Flock.AddBoid, AppCombined.Flock.AddBoid: these require that the new boid is not already in the flock. The JavaScript would let one boid sit in the list twice and move it twice per frame; the model keeps boids distinct so that each step changes one boid only.
- Flocking.Flock.Run: requires every boid's `id` to be below `l`. In the JavaScript a larger id reads `distances[id]` as `undefined` and throws; `startPaper` gives boid `i` the id `i`, which meets the requirement.
- Flocking.Boid.Run, Flocking.Boid.Flock: these require the boid's own row to exist in the table, for the same reason.
- AppCombined.Boid.constructor, Flocking.Boid.constructor: these require `0 <= u < 1` for every draw, as `Math.random()` promises. The mass, which every force is divided by, is then positive.
- The flock loops are split out: `MoveBoids` and `StepBoid` are the second loop of `Flock.run` and one iteration of it. Likewise `DistanceTable.FillRow` is the inner loop of the table, `CountFrame` the end of flock.js's `run`, and `Gather`, `Separate`, `Align`, `Cohere` and `Avoid` the loop and the result sections of the single-pass `flock`. Each is one JavaScript function split into methods, not a function of its own in the source.
- The falloff in app-combined.js and the single-pass snapshots is modelled as written. Because the vector is normalised right after it, the falloff has no effect (`Steering.FalloffCancels`), so no strength property beyond "unit vector or zero" is claimed.
- The JavaScript numbers of `frameCounter` and `performanceCounter` are unbounded integers here. The frame counter would lose precision only after 2^53 frames.
