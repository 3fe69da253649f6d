# Ideal gas simulation: a verified model of the physics core

This project models the engine of a two-dimensional ideal-gas simulation.
Particles of four configured kinds move in a rectangular box. They bounce
off its walls and collide elastically with one another. Every frame, the
simulation recounts one speed histogram per kind of particle.

The model has five modules:

- `Vectors` (`vectors.dfy`) stands in for `glm::vec2`, over the reals. Squared
  lengths replace `distance`, `length` and `pow(..., 2)`, so no square root
  is needed.
- `Particles` (`particle.dfy`) models `src/core/particle.cpp`.
  - `Particle` is a class whose position and velocity its methods update in place.
  - `Body` is the particle's value.
  - `CheckCollision` is the pure approach test.
  - `CollideParticles` is the elastic-collision update. Its contract is the
    function `Collide`, and the lemmas state what a collision conserves.
- `Histograms` (`histogram.dfy`) models `src/visualizer/histogram.cc`.
  - `ResetCount` allocates a zeroed array.
  - `CountParticle` finds a bin with its `while` loop and increments that one cell.
  - `TotalFrequency` is the sum loop at the top of `Draw`.
- `Sweep` (`sweep.dfy`) is the value-level model of the collision
  sweep in `Simulation::ProcessParticleCollision`.
  - The sweep is a schedule of visits. Each is either the wall checks of
    particle `i` or the pair `(i, j)`.
  - The visits run in order, and each visit sees the velocities the earlier
    visits left.
- `Simulations` (`simulation.dfy`) models `src/visualizer/simulation.cc`.
  - The particle configurations and histogram constants.
  - The `Simulation` class.
  - The per-kind tally that `UpdateHistogram` is proved to compute.

Three behaviours of the code are easy to misread, and the model follows
the code each time:

- A speed exactly on a bin boundary stays in the lower bin, because the loop
  compares with a strict `>`.
- `CollideParticles` has no guard for a zero mass sum.
- The four wall checks of particle `i` are interleaved with the pair scan:
  they come after the pairs `(k, i)` and before the pairs `(i, j)`. They are
  not a separate phase.

## Model

| member | source | states |
|---|---|---|
| Particles.Particle.constructor | src/core/particle.cpp:6-8 | the new particle has exactly the given kind, position, velocity, colour, radius and mass |
| Particles.Particle.ProcessMovement | src/core/particle.cpp:10-12 | the new state is the old one moved by its velocity; kind, velocity, radius and mass are unchanged |
| Particles.MovedTimesTravels | src/core/particle.cpp:10-12 | after `k` frames a body has moved by `k` times its velocity and nothing else about it has changed |
| Particles.MovementExamples | tests/particle_test.cpp:95-129 | the worked movements: one step, three steps, zero velocity stays put, negative velocity |
| Particles.Particle.ProcessXWallCollision | src/core/particle.cpp:14-21 | the x velocity is negated exactly when the particle is within its radius of the wall and moving towards it; nothing else changes |
| Particles.Particle.ProcessYWallCollision | src/core/particle.cpp:23-30 | the mirror on the y axis: only the y velocity can be negated, under the same two conditions |
| Particles.XWallKeepsSpeed | src/core/particle.cpp:14-21 | the x-wall check keeps the position, the y velocity and the speed; a second check against the same wall changes nothing |
| Particles.YWallKeepsSpeed | src/core/particle.cpp:23-30 | the y-wall check keeps the position, the x velocity and the speed; a second check against the same wall changes nothing |
| Particles.WallExamples | tests/particle_test.cpp:133-259 | the worked wall cases: flips on either side of a wall, no flip when too far away, no flip when moving away |
| Particles.Particle.SetVelocity | src/core/particle.cpp:55-57 | only the velocity changes, to the given one |
| Particles.WithinReachIsDistance | src/core/particle.cpp:62-63 | the squared comparison holds exactly when the true distance is at most the sum of the radii |
| Particles.CheckCollisionSymmetric | src/core/particle.cpp:59-66 | `CheckCollision(a, b)` holds exactly when `CheckCollision(b, a)` does |
| Particles.CheckCollisionNeedsRelativeMotion | src/core/particle.cpp:64-65 | particles at the same position, or with equal velocities, never collide, so the collision formula never divides by a zero distance |
| Particles.CheckCollisionOverlapExamples | tests/particle_test.cpp:388-471 | the worked overlap cases: radii 3 and 3 collide; radii 3 and 2 do not; radius 0 at one spot does not; moving apart does not |
| Particles.CheckCollisionDistantExamples | tests/particle_test.cpp:346-386 | particles 21 apart along x or along y, or about 21.2 apart diagonally, with radius sum 20, do not collide |
| Particles.CollideParticles | src/core/particle.cpp:68-83 | the two new states are `Collide` of the two old states; the second particle's update uses the first particle's velocity from before the call |
| Particles.CollideKeepsBodies | src/core/particle.cpp:68-83 | a collision changes the two velocities and nothing else: positions, kinds, radii and masses are kept |
| Particles.CollideSymmetric | src/core/particle.cpp:68-83 | exchanging the arguments exchanges the results, so either order gives the same pair of final velocities |
| Particles.CollideVelocities | src/core/particle.cpp:70-82 | both updates take off the same relative approach speed `c` along the line of centres, weighted by twice the other particle's mass share |
| Particles.CollideConservesMomentum | src/core/particle.cpp:70-82 | total momentum `ma·va + mb·vb` is the same before and after a collision |
| Particles.CollideConservesEnergy | src/core/particle.cpp:70-82 | total kinetic energy `ma·|va|² + mb·|vb|²` is the same before and after a collision |
| Particles.CollideReversesApproach | src/core/particle.cpp:70-82 | the relative velocity along the line of centres is exactly reversed |
| Particles.CollideResolves | src/core/particle.cpp:59-83 | two particles that collide no longer pass `CheckCollision` after the collision |
| Particles.CollideWithMassless | src/core/particle.cpp:77-82 | a massless particle leaves its partner unchanged and has its own relative approach speed reversed |
| Particles.CollideEqualMassesExample | tests/particle_test.cpp:276-294 | the worked collision of equal masses gives (-1.5, -0.5) and (3.5, 3.5) |
| Particles.CollideEqualMassesReversedExample | tests/particle_test.cpp:296-302 | the same collision with the arguments exchanged gives the same final velocities |
| Particles.CollideUnequalMassesExample | tests/particle_test.cpp:304-322 | the worked collision of masses 2 and 8 gives (-4.2, -3.2) and (0.8, 0.8) |
| Particles.CollideMasslessExample | tests/particle_test.cpp:324-342 | the worked collision of masses 0 and 8 gives (-6, -5) and leaves (-1, -1) |
| Histograms.Histogram.constructor | src/visualizer/histogram.cc:9-14 | the settings are stored and no bins exist before the first reset |
| Histograms.Histogram.ResetCount | src/visualizer/histogram.cc:27-29 | the bins are a fresh array of exactly `speedTicks` zeros |
| Histograms.Histogram.CountParticle | src/visualizer/histogram.cc:31-40 | the counts are the old counts with one added in the particle's bin `Bin(...)` and no other bin changed |
| Histograms.BinFrom | src/visualizer/histogram.cc:35-38 | the loop stops below `speedTicks`, after passing only upper edges the speed exceeds, and at an edge it does not exceed unless it is the last bin |
| Histograms.Bin | src/visualizer/histogram.cc:36 | the chosen bin is always below `speedTicks` |
| Histograms.BinIsFirstNotExceeded | src/visualizer/histogram.cc:35-38 | bin `k` is chosen exactly when the speed exceeds every upper edge below `k` and does not exceed edge `k`, unless `k` is the last bin |
| Histograms.BinBrackets | src/visualizer/histogram.cc:36 | a speed is above its bin's lower edge (unless it is bin 0) and at most its upper edge (unless it is the last bin) |
| Histograms.BinOfEdge | src/visualizer/histogram.cc:36 | a speed exactly `(k + 1)·interval` is counted in bin `k`, the lower one |
| Histograms.BinOfRest | src/visualizer/histogram.cc:36 | a particle at rest is counted in bin 0 |
| Histograms.BinOfFast | src/visualizer/histogram.cc:36 | every speed above `(speedTicks - 1)·interval` is counted in the last bin |
| Histograms.BinMonotone | src/visualizer/histogram.cc:36-38 | a greater speed never gets a lower bin |
| Histograms.FasterThanIsSpeed | src/visualizer/histogram.cc:32-36 | the squared comparison holds exactly when the true speed exceeds the threshold |
| Histograms.Increment | src/visualizer/histogram.cc:39 | exactly one bin grows by one and every other bin is unchanged |
| Histograms.SumIncrement | src/visualizer/histogram.cc:39 | counting one particle adds exactly one to the total |
| Histograms.SumZeros | src/visualizer/histogram.cc:28 | a reset histogram totals zero |
| Histograms.Histogram.TotalFrequency | src/visualizer/histogram.cc:16-20 | the total computed before drawing is the sum of all bins |
| Sweep.WallsCheckedKeepsBody | src/visualizer/simulation.cc:80-83 | the four wall checks change only the velocity, and keep the speed |
| Sweep.VisitedChangesVelocitiesOnly | src/visualizer/simulation.cc:80-88 | a visit changes only velocities, and only those of the particles it visits |
| Sweep.RunChangesVelocitiesOnly | src/visualizer/simulation.cc:78-91 | the whole sweep never changes a position, kind, radius or mass, nor the number of particles |
| Sweep.ScheduleCoversAll | src/visualizer/simulation.cc:79-89 | the sweep makes every wall check and visits every pair `i < j`, and nothing else |
| Sweep.ScheduleInRankOrder | src/visualizer/simulation.cc:79-89 | the visits are strictly increasing in (particle, partner) order, so each pair is visited exactly once; there are `n + n(n-1)/2` visits |
| Sweep.WallsBetweenPairs | src/visualizer/simulation.cc:79-89 | the wall checks of particle `i` come after every pair `(h, i)` and before every pair `(i, j)` |
| Sweep.SweepPairsIsRun | src/visualizer/simulation.cc:85-89 | the inner loop makes particle `i`'s pair visits in order of the partner |
| Sweep.SweepFromIsRun | src/visualizer/simulation.cc:79-90 | the outer loop makes, for each particle in turn, its wall checks and then its pair visits |
| Sweep.SweepIsSwept | src/visualizer/simulation.cc:79-90 | the two nested loops produce exactly the schedule run in order |
| Sweep.RunQuiet | src/visualizer/simulation.cc:79-90 | when no particle is within its radius of a wall and no pair overlaps, the sweep changes nothing |
| Sweep.StepMoves | src/visualizer/simulation.cc:35-37 | a frame moves every particle by its pre-frame velocity and otherwise changes only velocities |
| Sweep.StepQuiet | src/visualizer/simulation.cc:35-37 | a frame in which nothing ends up near a wall or another particle is pure motion |
| Simulations.ConfigMassesPositive | include/visualizer/simulation.h:58-62 | every configured mass is positive, so no collision in the simulation divides by a zero mass sum |
| Simulations.Simulation.constructor | src/visualizer/simulation.cc:9-16 | the new simulation holds the given population in the given box, with one empty histogram per configured kind |
| Simulations.Simulation.InitializeHistograms | src/visualizer/simulation.cc:66-70 | one histogram is appended per configuration, in configuration order, with the configured settings and colour |
| Simulations.Simulation.ProcessParticleMovement | src/visualizer/simulation.cc:72-76 | every particle, in order, is moved by its velocity |
| Simulations.Simulation.ProcessParticleCollision | src/visualizer/simulation.cc:78-91 | the particles end as the sweep schedule, run on the old particles, leaves them |
| Simulations.Simulation.ProcessWallCollisions | src/visualizer/simulation.cc:80-83 | particle `i` is checked against the left, right, top and bottom walls, in that order |
| Simulations.Simulation.ProcessPairsOf | src/visualizer/simulation.cc:85-89 | particle `i` visits every later particle in order |
| Simulations.Simulation.ProcessPair | src/visualizer/simulation.cc:86-88 | a pair collides exactly when `CheckCollision` holds on its current velocities |
| Simulations.Simulation.UpdateHistogram | src/visualizer/simulation.cc:93-101 | each histogram ends as the tally of the current particles of its kind |
| Simulations.Simulation.ResetCounts | src/visualizer/simulation.cc:94-96 | every histogram is emptied into a fresh array of its own |
| Simulations.Simulation.CountParticles | src/visualizer/simulation.cc:98-100 | every particle is counted, in order, in the histogram of its kind |
| Simulations.Simulation.CountInHistogramOfKind | src/visualizer/simulation.cc:99 | only the histogram of the particle's kind changes, gaining one in the particle's bin |
| Simulations.Simulation.Update | src/visualizer/simulation.cc:35-39 | one frame is motion, then the sweep, then the recount: the particles end as `Step` of the old ones and the histograms tally them |
| Simulations.TallyCountsBins | src/visualizer/simulation.cc:93-101 | bin `k` of histogram `t` holds the number of kind-`t` particles whose speed falls in bin `k` |
| Simulations.TallySum | src/visualizer/simulation.cc:93-101 | histogram `t`'s bins sum to the number of particles of kind `t` |
| Simulations.StepKeepsKinds | src/visualizer/simulation.cc:35-39 | a frame keeps the number of particles of every kind |

## Left out

- Rendering is not modelled: `Simulation::Draw` and `Histogram::Draw`, `DrawBackground`, `DrawTicks` and `DrawBars`. They are graphics calls. The one exception is the frequency sum at the top of `Histogram::Draw`, which `TotalFrequency` models.
- The application shell (`src/visualizer/ideal_gas_app.cc`) only opens the window and forwards `draw` and `update`.
- Random start-up is not modelled: `InitializeParticles` and `GenerateRandomDouble` depend on `rand()` seeded from the clock. The constant `kMaxSpeedFactor` is used only by that start-up, so it is left out with it.
  - Simulations.Simulation.constructor: instead of generating particles, it takes the initial population as a parameter.
  - Every body in that population must follow its kind's configured radius and mass.
- Floating point is not modelled. Vectors are pairs of reals, and the `float(...)` casts and IEEE rounding are dropped.
  - Squared comparisons replace `distance`, `length` and `pow(distance, 2)`.
  - `WithinReachIsDistance` and `FasterThanIsSpeed` tie each squared comparison to the comparison of the true root.
  - The unqualified `abs` in the wall checks is real absolute value.
- Integer widths are not modelled. `size_t` counts and indices are unbounded naturals.
- Histograms.Histogram.CountParticle requires `speedTicks >= 1` and a prior reset, with `frequencies.Length == speedTicks`. With zero ticks, the source's `kSpeedTicks - 1` wraps around. Without a prior reset, the source writes outside the empty vector the constructor leaves.
- Colours are carried as opaque strings and never inspected. The getters are field reads.
- Particles.CollideParticles requires distinct positions and a non-zero mass sum. These are the two divisors the source divides by without a guard.
  - Distinct positions always hold when `CheckCollision` does (`CheckCollisionNeedsRelativeMotion`).
  - A zero mass sum cannot arise in the simulation, because every configured mass is positive (`ConfigMassesPositive`).
- Sweep.Visited leaves a colliding pair whose masses sum to zero unchanged, so that the value-level sweep is total. The source would divide by zero there, and the model does not capture that result. No simulation reaches that case, because `Simulation.Valid` requires every mass to be positive.
- Particles and histograms are modelled as sequences of distinct objects (`Simulation.Valid`). In the source they are vectors of values. The objects never alias, so the two agree.
