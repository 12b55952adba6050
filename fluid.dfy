/** The simulation state that Fluid.py keeps in module-level globals (the
    `particles` list, the gravity and freeze flags and the current smoothing
    radius), and the operations of the main loop that change it. */
module Fluid {
  import opened Vectors
  import opened Kernel
  import opened Physics
  import opened Controls

  /** Number of particles spawned at start-up (Fluid.py:14, 103). */
  const MAX_PARTICLES: nat := 10
  /** Initial value of the smoothing-radius slider (Fluid.py:75). */
  const INITIAL_SMOOTHING_RADIUS: int := 50

  /** The particles with every smoothing radius set to `r`. */
  function WithSmoothingRadius(ps: seq<Particle>, r: int): (qs: seq<Particle>)
    ensures |qs| == |ps|
    ensures Positions(qs) == Positions(ps) && Velocities(qs) == Velocities(ps)
    ensures forall k :: 0 <= k < |qs| ==> qs[k].smoothingRadius == r
  {
    seq(|ps|, k requires 0 <= k < |ps| => ps[k].(smoothingRadius := r))
  }

  class Simulation {
    var particles: seq<Particle>
    var gravityEnabled: bool
    var frozen: bool
    var smoothingRadius: int

    /** The smoothing radius stays in its slider's range and the particle count
        between the particle slider's limits. */
    ghost predicate Valid()
      reads this
    {
      && SMOOTHING_RADIUS_MIN <= smoothingRadius <= SMOOTHING_RADIUS_MAX
      && PARTICLE_LIMIT_MIN <= |particles| <= PARTICLE_LIMIT_MAX
    }

    /** The start-up state: ten particles spawned from the given draws, gravity
        on, not frozen, smoothing radius 50 (Fluid.py:12-20, 33, 75, 103). */
    constructor (draws: seq<Draw>)
      requires |draws| == MAX_PARTICLES
      ensures Valid()
      ensures particles == SpawnAll(draws, INITIAL_SMOOTHING_RADIUS)
      ensures gravityEnabled && !frozen && smoothingRadius == INITIAL_SMOOTHING_RADIUS
    {
      particles := [];
      gravityEnabled := true;
      frozen := false;
      smoothingRadius := INITIAL_SMOOTHING_RADIUS;
      new;
      SpawnParticles(draws);
    }

    /** `spawn_particles`: append one particle per draw, in order, each with the
        current smoothing radius. */
    method SpawnParticles(draws: seq<Draw>)
      modifies this
      ensures particles == old(particles) + SpawnAll(draws, smoothingRadius)
      ensures gravityEnabled == old(gravityEnabled) && frozen == old(frozen)
      ensures smoothingRadius == old(smoothingRadius)
    {
      var k := 0;
      while k < |draws|
        invariant 0 <= k <= |draws|
        invariant particles == old(particles) + SpawnAll(draws[..k], smoothingRadius)
        invariant gravityEnabled == old(gravityEnabled) && frozen == old(frozen)
        invariant smoothingRadius == old(smoothingRadius)
      {
        var d := draws[k];
        var pos := Vec2(d.forPos.x * WIDTH, d.forPos.y * HEIGHT);
        var vel := Scale(Sub(d.forVel, Vec2(0.5, 0.5)), 10.0);
        particles := particles + [Particle(pos, vel, smoothingRadius)];
        SpawnAllAppend(draws[..k], [draws[k]], smoothingRadius);
        assert draws[..k + 1] == draws[..k] + [draws[k]];
        k := k + 1;
      }
      assert draws[..k] == draws;
    }

    /** `update_particles`: integrate and clamp every particle, then resolve every
        pair i < j in order against the list as earlier pairs left it. */
    method UpdateParticles(norm: Vec2 -> real)
      modifies this
      ensures particles == Step(old(particles), gravityEnabled, norm)
      ensures gravityEnabled == old(gravityEnabled) && frozen == old(frozen)
      ensures smoothingRadius == old(smoothingRadius)
      ensures IsNorm(norm) ==>
        && Total(Velocities(particles)) == Total(Velocities(AdvanceAll(old(particles), gravityEnabled)))
        && Total(Positions(particles)) == Total(Positions(AdvanceAll(old(particles), gravityEnabled)))
    {
      AdvanceParticles();
      ghost var advanced := particles;
      ResolveCollisions(norm);
      if IsNorm(norm) {
        CollisionsConserve(advanced, norm);
      }
    }

    /** The first loop of `update_particles` (Fluid.py:123-148): damping, gravity,
        motion and the boundary clamp, applied to each particle in place. */
    method AdvanceParticles()
      modifies this
      ensures particles == AdvanceAll(old(particles), gravityEnabled)
      ensures gravityEnabled == old(gravityEnabled) && frozen == old(frozen)
      ensures smoothingRadius == old(smoothingRadius)
    {
      var k := 0;
      while k < |particles|
        invariant 0 <= k <= |particles| == |old(particles)|
        invariant particles[..k] == AdvanceAll(old(particles), gravityEnabled)[..k]
        invariant particles[k..] == old(particles)[k..]
        invariant gravityEnabled == old(gravityEnabled) && frozen == old(frozen)
        invariant smoothingRadius == old(smoothingRadius)
      {
        var p := particles[k];
        assert p == old(particles)[k] by {
          assert particles[k..][0] == old(particles)[k..][0];
        }
        var vel := Scale(p.vel, DAMPING_FACTOR);
        if gravityEnabled {
          vel := Add(vel, GRAVITY_FORCE);
        }
        var pos := Add(p.pos, vel);
        ghost var q := Integrate(p, gravityEnabled);
        assert pos == q.pos && vel == q.vel;
        if pos.x < RADIUS {
          pos := pos.(x := RADIUS);
          if vel.x < 0.0 {
            vel := vel.(x := vel.x * BOUNDARY_DAMPING);
          }
        } else if pos.x > WIDTH - RADIUS {
          pos := pos.(x := WIDTH - RADIUS);
          if vel.x > 0.0 {
            vel := vel.(x := vel.x * BOUNDARY_DAMPING);
          }
        }
        assert (pos.x, vel.x) == ClampAxis(q.pos.x, q.vel.x, RADIUS, WIDTH - RADIUS);
        if pos.y < RADIUS {
          pos := pos.(y := RADIUS);
          if vel.y < 0.0 {
            vel := vel.(y := vel.y * BOUNDARY_DAMPING);
          }
        } else if pos.y > HEIGHT - RADIUS {
          pos := pos.(y := HEIGHT - RADIUS);
          if vel.y > 0.0 {
            vel := vel.(y := vel.y * BOUNDARY_DAMPING);
          }
        }
        assert (pos.y, vel.y) == ClampAxis(q.pos.y, q.vel.y, RADIUS, HEIGHT - RADIUS);
        assert p.(pos := pos, vel := vel) == Advance(p, gravityEnabled);
        particles := particles[k := p.(pos := pos, vel := vel)];
        k := k + 1;
      }
      assert particles == particles[..k];
    }

    /** The nested collision loop of `update_particles` (Fluid.py:151-171). */
    method ResolveCollisions(norm: Vec2 -> real)
      modifies this
      ensures particles == Collisions(old(particles), norm)
      ensures gravityEnabled == old(gravityEnabled) && frozen == old(frozen)
      ensures smoothingRadius == old(smoothingRadius)
    {
      var i := 0;
      while i < |particles|
        invariant 0 <= i <= |particles| == |old(particles)|
        invariant SweepFrom(particles, i, norm) == Collisions(old(particles), norm)
        invariant gravityEnabled == old(gravityEnabled) && frozen == old(frozen)
        invariant smoothingRadius == old(smoothingRadius)
      {
        CollideRow(i, norm);
        i := i + 1;
      }
    }

    /** One pass of the inner loop: the pairs (i, j) for j = i+1, i+2, ... in
        order (Fluid.py:152-171). */
    method CollideRow(i: nat, norm: Vec2 -> real)
      requires i < |particles|
      modifies this
      ensures particles == SweepRow(old(particles), i, i + 1, norm)
      ensures gravityEnabled == old(gravityEnabled) && frozen == old(frozen)
      ensures smoothingRadius == old(smoothingRadius)
    {
      var j := i + 1;
      while j < |particles|
        invariant i < j <= |particles| == |old(particles)|
        invariant SweepRow(particles, i, j, norm) == SweepRow(old(particles), i, i + 1, norm)
        invariant gravityEnabled == old(gravityEnabled) && frozen == old(frozen)
        invariant smoothingRadius == old(smoothingRadius)
      {
        CollideInPlace(i, j, norm);
        j := j + 1;
      }
    }

    /** The body of the collision loop for the pair (i, j) (Fluid.py:153-171):
        measure their distance and, if they overlap, exchange their normal
        velocity components and push them apart. */
    method CollideInPlace(i: nat, j: nat, norm: Vec2 -> real)
      requires i < j < |particles|
      modifies this
      ensures particles == CollidePair(old(particles), i, j, norm)
      ensures gravityEnabled == old(gravityEnabled) && frozen == old(frozen)
      ensures smoothingRadius == old(smoothingRadius)
    {
      var p1, p2 := particles[i], particles[j];
      var pos1, pos2 := p1.pos, p2.pos;
      var dist := norm(Sub(pos1, pos2));
      if dist < 2.0 * RADIUS && dist != 0.0 {
        var normal := Div(Sub(pos2, pos1), dist);
        var tangent := Vec2(-normal.y, normal.x);
        var v1n := Dot(p1.vel, normal);
        var v1t := Dot(p1.vel, tangent);
        var v2n := Dot(p2.vel, normal);
        var v2t := Dot(p2.vel, tangent);
        v1n, v2n := v2n, v1n;
        var overlap := 2.0 * RADIUS - dist;
        var correction := Scale(normal, overlap / 2.0);
        particles := particles[i := p1.(vel := Add(Scale(normal, v1n), Scale(tangent, v1t)),
                                        pos := Sub(p1.pos, correction))];
        particles := particles[j := p2.(vel := Add(Scale(normal, v2n), Scale(tangent, v2t)),
                                        pos := Add(p2.pos, correction))];
      }
    }

    /** The particle slider: spawn up to the target count or cut the list back to
        it (Fluid.py:199-207). `draws` supplies the random numbers for the
        particles that may be spawned. */
    method DragParticleSlider(mouseX: int, draws: seq<Draw>)
      requires Valid()
      requires |draws| >= TargetParticles(mouseX) - |particles|
      modifies this
      ensures Valid()
      ensures |particles| == TargetParticles(mouseX)
      ensures |old(particles)| <= |particles| ==>
        particles == old(particles) + SpawnAll(draws[..|particles| - |old(particles)|], smoothingRadius)
      ensures |particles| <= |old(particles)| ==> particles == old(particles)[..|particles|]
      ensures gravityEnabled == old(gravityEnabled) && frozen == old(frozen)
      ensures smoothingRadius == old(smoothingRadius)
    {
      var target := TargetParticles(mouseX);
      if target > |particles| {
        SpawnParticles(draws[..target - |particles|]);
      } else if target < |particles| {
        particles := particles[..target];
      }
    }

    /** The smoothing-radius slider (Fluid.py:213-217). */
    method DragSmoothingSlider(mouseX: int)
      requires Valid()
      modifies this
      ensures Valid()
      ensures smoothingRadius == SmoothingRadiusFor(mouseX)
      ensures particles == old(particles)
      ensures gravityEnabled == old(gravityEnabled) && frozen == old(frozen)
    {
      smoothingRadius := SmoothingRadiusFor(mouseX);
    }

    /** The G key (Fluid.py:179-181). */
    method ToggleGravity()
      requires Valid()
      modifies this
      ensures Valid()
      ensures gravityEnabled == !old(gravityEnabled)
      ensures particles == old(particles) && frozen == old(frozen)
      ensures smoothingRadius == old(smoothingRadius)
    {
      gravityEnabled := !gravityEnabled;
    }

    /** The freeze button (Fluid.py:183-185). */
    method ToggleFreeze()
      requires Valid()
      modifies this
      ensures Valid()
      ensures frozen == !old(frozen)
      ensures particles == old(particles) && gravityEnabled == old(gravityEnabled)
      ensures smoothingRadius == old(smoothingRadius)
    {
      frozen := !frozen;
    }

    /** One pass of the main loop's state changes after event handling: the
        physics step unless frozen (Fluid.py:219-220), then the draw loop's
        copying of the current smoothing radius into every particle
        (Fluid.py:252-253). */
    method Frame(norm: Vec2 -> real)
      requires Valid()
      modifies this
      ensures Valid()
      ensures particles == WithSmoothingRadius(
        if old(frozen) then old(particles) else Step(old(particles), gravityEnabled, norm),
        smoothingRadius)
      ensures gravityEnabled == old(gravityEnabled) && frozen == old(frozen)
      ensures smoothingRadius == old(smoothingRadius)
    {
      if !frozen {
        UpdateParticles(norm);
      }
      ApplySmoothingRadius();
    }

    /** The assignment `p['smoothing_radius'] = smoothing_radius` that the draw
        loop performs on every particle. */
    method ApplySmoothingRadius()
      modifies this
      ensures particles == WithSmoothingRadius(old(particles), smoothingRadius)
      ensures gravityEnabled == old(gravityEnabled) && frozen == old(frozen)
      ensures smoothingRadius == old(smoothingRadius)
    {
      var k := 0;
      while k < |particles|
        invariant 0 <= k <= |particles| == |old(particles)|
        invariant particles[..k] == WithSmoothingRadius(old(particles), smoothingRadius)[..k]
        invariant particles[k..] == old(particles)[k..]
        invariant gravityEnabled == old(gravityEnabled) && frozen == old(frozen)
        invariant smoothingRadius == old(smoothingRadius)
      {
        assert particles[k] == old(particles)[k] by {
          assert particles[k..][0] == old(particles)[k..][0];
        }
        particles := particles[k := particles[k].(smoothingRadius := smoothingRadius)];
        k := k + 1;
      }
      assert particles == particles[..k];
    }

    /** The density readout under the mouse cursor (Fluid.py:240-243). */
    method DensityReadout(mouse: Vec2, norm: Vec2 -> real) returns (density: real)
      requires Valid()
      ensures density == Density(Distances(mouse, Positions(particles), norm), smoothingRadius as real)
      ensures IsNorm(norm) ==> 0.0 <= density <= |particles| as real
    {
      density := CalculateDensity(mouse, Positions(particles), smoothingRadius as real, norm);
    }
  }
}
