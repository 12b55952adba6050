# 2D fluid simulation: a verified model of the particle core

`Fluid.py` is a small pygame program. It shows a box of 800×600 pixels with
circular particles of radius 5. Every frame it damps each particle's velocity
and adds gravity if it is on. It then moves the particle and clamps it into
the window, reflecting and damping a velocity that points out of the window.
Finally it resolves overlapping pairs of particles one pair after another: the
two particles exchange their velocity components along the line between their
centres and are pushed apart to a distance of two radii.

Sliders set the number of particles and the smoothing radius. Extra particles
are spawned at random places with random velocities; surplus ones are cut from
the end of the list. Under the mouse cursor the program shows a density
estimate: a sum of a linear smoothing kernel over all particles within the
smoothing radius.

This project models that core in Dafny, over exact real arithmetic.

- `vectors.dfy` (module `Vectors`) holds the two-component vectors and the
  facts assumed of `np.linalg.norm`.
- `kernel.dfy` (module `Kernel`) holds the smoothing kernel and the density sum.
- `physics.dfy` (module `Physics`) holds the per-frame physics as pure
  functions: integration, the boundary clamp, one collision, and the sequential
  collision pass. It also proves the conservation laws.
- `controls.dfy` (module `Controls`) holds the slider arithmetic and the
  construction of a spawned particle from its random numbers.
- `fluid.dfy` (module `Fluid`) holds class `Simulation`. Its fields are the
  program's globals (`particles`, `gravity_enabled`, `frozen`,
  `smoothing_radius`). Its methods are the loops of `update_particles`,
  `spawn_particles`, slider dragging, the key and button toggles, and the
  density readout. Each method is proved to compute the pure functions in
  `Physics`, `Controls` and `Kernel`.

Two inputs come from outside the model:

- The Euclidean length is a parameter `norm`. The lemmas that need it assume
  only `Vectors.IsNorm`: the length is non-negative, zero exactly at the zero
  vector, and dividing a non-zero vector by its length gives a unit vector.
- Every `np.random.rand(2)` result is an input (`Controls.Draw`). Bounds on
  spawned particles are proved for draws in [0, 1).

Two facts the verification brought out, stated as lemmas rather than as bugs:

- The slider handle's centre stays 10 pixels inside each end of the bar. So
  the particle slider yields only 19 to 290 particles, never the nominal
  limits 10 and 300. The smoothing slider yields 24 to 145, not 20 to 150.
- The clamp runs before the collision pass, so a collision can push a particle
  back out of the window. The model therefore does not claim that particles
  are inside the window at the end of a frame.

## Model

| member | source | states |
|---|---|---|
| Kernel.SmoothingKernel | Fluid.py:105-108 | weight 0 beyond the radius and at it, exactly 1 at distance 0, and within [0, 1] in between |
| Kernel.KernelMonotone | Fluid.py:105-108 | the kernel never increases with distance |
| Kernel.Influence | Fluid.py:115-117 | a neighbour at or beyond the radius adds nothing; one strictly inside adds a weight in (0, 1]; one at distance 0 adds exactly the mass 1 |
| Kernel.Density | Fluid.py:110-118 | the density sum over non-negative distances lies between 0 and the number of particles |
| Kernel.DensityOnlyNear | Fluid.py:113-117 | the density equals the density of the distances strictly inside the radius alone, and is at most their count |
| Kernel.DensityPositiveIff | Fluid.py:113-118 | the density is positive if and only if some particle lies strictly inside the radius |
| Kernel.CalculateDensity | Fluid.py:110-118 | the accumulation loop returns the density sum of the distances to every position, and for a true norm it lies in [0, number of positions] |
| Kernel.DensityOfLoneParticle | Fluid.py:110-118 | a single particle exactly at the sample point gives density exactly 1 |
| Physics.Integrate | Fluid.py:124-128 | the new position is the old one plus the new velocity; the smoothing radius is untouched |
| Physics.GravityIsNotDamped | Fluid.py:124-127 | without gravity the velocity is scaled by 0.95; gravity then adds its full (0, 0.1), applied after damping |
| Physics.ClampAxis | Fluid.py:130-148 | the coordinate ends in [lo, hi]; an in-range coordinate and its velocity are unchanged; below lo the coordinate becomes lo with a velocity that does not point out, above hi it becomes hi likewise; the velocity changes exactly when the coordinate was out of range with the velocity pointing out, and then becomes -0.7 times itself |
| Physics.ClampAxisIdempotent | Fluid.py:130-148 | clamping an axis twice is the same as clamping it once |
| Physics.ClampToBox | Fluid.py:130-148 | the clamped centre lies at least one radius inside every edge, and a particle already inside is unchanged |
| Physics.ClampToBoxIdempotent | Fluid.py:130-148 | clamping a particle twice is the same as clamping it once |
| Physics.Advance | Fluid.py:123-148 | after integration and clamping the centre lies inside the box |
| Physics.AdvanceAll | Fluid.py:122-148 | the first loop keeps the number of particles and leaves every centre inside the box |
| Physics.NormIsValidDistance | Fluid.py:157-159 | with a true norm, the normal computed from `dist` is a unit vector |
| Physics.Collide | Fluid.py:158-171 | a pair that does not overlap, or whose centres coincide, is left unchanged; the sum of the two positions is preserved; the smoothing radii are preserved |
| Physics.CollideExchangesNormalComponents | Fluid.py:159-167 | after the collision each particle has the other's velocity component along the normal and keeps its own tangential component |
| Physics.CollideConservesMomentum | Fluid.py:159-167 | the sum of the two velocities is unchanged |
| Physics.CollideConservesEnergy | Fluid.py:159-167 | the sum of the squared speeds is unchanged |
| Physics.CollideSeparates | Fluid.py:168-171 | afterwards the second centre is exactly the normal times two radii from the first, so their squared distance is 100 |
| Physics.HeadOnExchangesVelocities | Fluid.py:159-167 | when both velocities lie along the normal, the particles swap velocities |
| Physics.CollisionCanLeaveBox | Fluid.py:130-171 | a particle clamped to the left edge can be pushed outside the box by a later collision |
| Physics.CollidePair | Fluid.py:153-158 | resolving pair (i, j) changes only entries i and j, and changes nothing when they do not overlap |
| Physics.SweepRow | Fluid.py:152-171 | the rest of a row of the collision loop keeps the number of particles |
| Physics.SweepFrom | Fluid.py:151-171 | the rest of the collision loop keeps the number of particles |
| Physics.Step | Fluid.py:120-171 | one call of `update_particles` keeps the number of particles |
| Physics.CollidePairConserves | Fluid.py:153-171 | resolving one pair keeps the total velocity and the total position of the whole list |
| Physics.SweepRowConserves | Fluid.py:152-171 | a row of the collision loop keeps both totals |
| Physics.SweepFromConserves | Fluid.py:151-171 | the rest of the collision loop keeps both totals |
| Physics.CollisionsConserve | Fluid.py:151-171 | the whole collision pass keeps the number of particles, the total velocity and the centre of mass |
| Controls.Trunc | Fluid.py:203 | Python's `int` truncates toward zero: the result is within one of the argument, on the side of zero |
| Controls.HandleX | Fluid.py:201 | the handle stays on the bar, and is centred on the mouse whenever that fits |
| Controls.RelativePos | Fluid.py:202 | the handle centre's relative position lies in [10/300, 290/300] |
| Controls.Lerp | Fluid.py:203 | interpolating between two limits stays between them and hits each at the ends |
| Controls.SliderValue | Fluid.py:201-203 | a slider's value always lies within its limits |
| Controls.SliderMonotone | Fluid.py:201-203 | dragging further right never lowers the value |
| Controls.TargetParticles | Fluid.py:201-203 | the target count lies in [10, 300] |
| Controls.TargetParticlesRange | Fluid.py:201-203 | the target count actually lies in [19, 290], reaching 19 at the left end and 290 at the right |
| Controls.SmoothingRadiusFor | Fluid.py:215-217 | the smoothing radius lies in [20, 150] |
| Controls.SmoothingRadiusRange | Fluid.py:215-217 | the smoothing radius actually lies in [24, 145] |
| Controls.Spawned | Fluid.py:95-101 | a new particle carries the current smoothing radius; for draws in [0, 1) its position is in [0, 800)×[0, 600) and its velocity in [-5, 5)² |
| Controls.SpawnedCoversRange | Fluid.py:95-96 | every position in the window and every velocity in [-5, 5)² is produced by some valid draw |
| Controls.SpawnAll | Fluid.py:93-101 | one particle per draw, all with the current smoothing radius and, for valid draws, all within the spawn bounds |
| Controls.SpawnAllAppend | Fluid.py:93-101 | spawning two batches in turn equals spawning them together |
| Fluid.WithSmoothingRadius | Fluid.py:252-253 | setting every smoothing radius keeps the count, positions and velocities |
| Fluid.Simulation.constructor | Fluid.py:12-20 | start-up state: ten particles spawned with smoothing radius 50, gravity on, not frozen, and the state invariant holds |
| Fluid.Simulation.SpawnParticles | Fluid.py:93-101 | `spawn_particles` appends exactly one spawned particle per draw, in order, after the existing ones |
| Fluid.Simulation.UpdateParticles | Fluid.py:120-171 | the particles become one physics step of the old ones; for a true norm, the collision pass keeps the total velocity and the centre of mass of the integrated particles |
| Fluid.Simulation.AdvanceParticles | Fluid.py:122-148 | the first loop replaces every particle by its integrated and clamped self |
| Fluid.Simulation.ResolveCollisions | Fluid.py:150-171 | the nested loop computes the collision pass over all pairs i < j in order |
| Fluid.Simulation.CollideRow | Fluid.py:152-171 | the inner loop computes row i of the collision pass |
| Fluid.Simulation.CollideInPlace | Fluid.py:153-171 | the loop body resolves pair (i, j) of the current list |
| Fluid.Simulation.DragParticleSlider | Fluid.py:199-207 | the count becomes the slider's target; growing appends exactly the missing particles from the draws, shrinking keeps exactly the first `target` particles; the invariant holds |
| Fluid.Simulation.DragSmoothingSlider | Fluid.py:213-217 | the smoothing radius becomes the slider's value and nothing else changes |
| Fluid.Simulation.ToggleGravity | Fluid.py:179-181 | the G key flips gravity and nothing else |
| Fluid.Simulation.ToggleFreeze | Fluid.py:183-185 | the freeze button flips the frozen flag and nothing else |
| Fluid.Simulation.Frame | Fluid.py:219-220 | a frame applies one physics step unless frozen, then sets every particle's smoothing radius to the current one |
| Fluid.Simulation.ApplySmoothingRadius | Fluid.py:252-253 | the draw loop sets every particle's smoothing radius and changes nothing else |
| Fluid.Simulation.DensityReadout | Fluid.py:240-243 | the readout is the density sum at the mouse position over all particle positions, within [0, number of particles] |

## Left out

- Drawing, the window, fonts, the clock, and hit-testing of mouse clicks on
  the handles and the button are left out. These are pygame I/O. The model's
  operations start where a handler has decided which action applies.
- The circle-radius slider (Fluid.py:55-71, 208-212) is left out: its value is
  used only to draw a circle.
- The per-particle alpha-circle rendering in the draw loop is left out (I/O).
  Only its assignment of the smoothing radius is modelled.
- `np.linalg.norm` is a parameter with the properties in `Vectors.IsNorm`. The
  square root itself is not modelled.
- `np.random.rand` is left out. Its results are inputs, and the bounds of
  spawned particles are proved for inputs in [0, 1).
- Floating-point rounding is not modelled. Conservation and the exact
  separation of two radii hold over the reals, not in IEEE doubles.
- Each particle is a dictionary of numpy arrays updated in place. The model
  holds particles as values in a sequence that the methods reassign. The
  source never shares an array between two particles, so no aliasing is lost.
- Fluid.Simulation.Frame: does not model event handling within the frame.
  The toggles and slider drags are separate methods that a caller runs before
  `Frame`.
- Physics.Step: states only that the count is kept. The clamp bounds do not
  survive the collision pass (see `Physics.CollisionCanLeaveBox`). The
  conservation laws of the pass are separate lemmas.
