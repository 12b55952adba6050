/** The per-frame physics of `update_particles` (Fluid.py:120-171): integration,
    clamping to the window, and the sequential pairwise collision pass. The pure
    functions here specify what the imperative loops of Fluid.Simulation compute. */
module Physics {
  import opened Vectors

  const WIDTH: real := 800.0
  const HEIGHT: real := 600.0
  /** Radius of every particle, used for the walls and for collisions. */
  const RADIUS: real := 5.0
  const DAMPING_FACTOR: real := 0.95
  const GRAVITY_FORCE: Vec2 := Vec2(0.0, 0.1)
  /** Factor applied to a velocity component that points out of the window. */
  const BOUNDARY_DAMPING: real := -0.7

  /** One entry of the `particles` list. `smoothingRadius` is carried along but
      never read by the physics. */
  datatype Particle = Particle(pos: Vec2, vel: Vec2, smoothingRadius: int)

  // ---------------------------------------------------------------------------
  // Integration (Fluid.py:124-128)

  /** Damp the velocity, then add gravity if it is on, then move by the new
      velocity. */
  function Integrate(p: Particle, gravityEnabled: bool): (q: Particle)
    ensures q.pos == Add(p.pos, q.vel)
    ensures q.smoothingRadius == p.smoothingRadius
  {
    var damped := Scale(p.vel, DAMPING_FACTOR);
    var vel := if gravityEnabled then Add(damped, GRAVITY_FORCE) else damped;
    p.(pos := Add(p.pos, vel), vel := vel)
  }

  /** Gravity is added after damping: without gravity the velocity shrinks by the
      damping factor, and gravity adds its full, undamped pull on top. */
  lemma GravityIsNotDamped(p: Particle)
    ensures Integrate(p, false).vel == Scale(p.vel, DAMPING_FACTOR)
    ensures Sub(Integrate(p, true).vel, Integrate(p, false).vel) == GRAVITY_FORCE
  {
  }

  // ---------------------------------------------------------------------------
  // Boundary clamp (Fluid.py:130-148)

  /** One axis of the clamp: a coordinate below `lo` is set to `lo`, one above `hi`
      to `hi`, and in either case a velocity pointing further out is reversed and
      damped. Returns the new coordinate and velocity component. */
  function ClampAxis(x: real, v: real, lo: real, hi: real): (r: (real, real))
    ensures lo <= hi ==> lo <= r.0 <= hi
    ensures lo <= x <= hi ==> r == (x, v)
    ensures x < lo ==> r.0 == lo && r.1 >= 0.0
    ensures lo <= x && x > hi ==> r.0 == hi && r.1 <= 0.0
    ensures r.1 != v <==> (x < lo && v < 0.0) || (lo <= x && x > hi && v > 0.0)
    ensures r.1 != v ==> r.1 == BOUNDARY_DAMPING * v
  {
    if x < lo then
      (lo, if v < 0.0 then v * BOUNDARY_DAMPING else v)
    else if x > hi then
      (hi, if v > 0.0 then v * BOUNDARY_DAMPING else v)
    else
      (x, v)
  }

  /** Applying the clamp to its own result changes nothing. */
  lemma ClampAxisIdempotent(x: real, v: real, lo: real, hi: real)
    requires lo <= hi
    ensures ClampAxis(ClampAxis(x, v, lo, hi).0, ClampAxis(x, v, lo, hi).1, lo, hi) == ClampAxis(x, v, lo, hi)
  {
  }

  /** The centre lies at least one radius inside every edge of the window. */
  ghost predicate InBox(pos: Vec2) {
    RADIUS <= pos.x <= WIDTH - RADIUS && RADIUS <= pos.y <= HEIGHT - RADIUS
  }

  /** The clamp of both axes, x first and then y. */
  function ClampToBox(p: Particle): (q: Particle)
    ensures InBox(q.pos)
    ensures InBox(p.pos) ==> q == p
    ensures q.smoothingRadius == p.smoothingRadius
  {
    var (x, vx) := ClampAxis(p.pos.x, p.vel.x, RADIUS, WIDTH - RADIUS);
    var (y, vy) := ClampAxis(p.pos.y, p.vel.y, RADIUS, HEIGHT - RADIUS);
    p.(pos := Vec2(x, y), vel := Vec2(vx, vy))
  }

  /** Clamping an already clamped particle is a no-op. */
  lemma ClampToBoxIdempotent(p: Particle)
    ensures ClampToBox(ClampToBox(p)) == ClampToBox(p)
  {
  }

  /** The first phase of a frame for one particle: integrate, then clamp. */
  function Advance(p: Particle, gravityEnabled: bool): (q: Particle)
    ensures InBox(q.pos)
    ensures q.smoothingRadius == p.smoothingRadius
  {
    ClampToBox(Integrate(p, gravityEnabled))
  }

  /** The first phase over the whole list. */
  function AdvanceAll(ps: seq<Particle>, gravityEnabled: bool): (qs: seq<Particle>)
    ensures |qs| == |ps|
    ensures forall k :: 0 <= k < |qs| ==> InBox(qs[k].pos)
  {
    seq(|ps|, k requires 0 <= k < |ps| => Advance(ps[k], gravityEnabled))
  }

  // ---------------------------------------------------------------------------
  // Collision of one pair (Fluid.py:157-171)

  /** Two particles at distance `dist` are resolved when they overlap and do not
      coincide (Fluid.py:158). */
  predicate Overlapping(dist: real) {
    dist < 2.0 * RADIUS && dist != 0.0
  }

  /** The direction from the first particle to the second. */
  function CollisionNormal(p1: Particle, p2: Particle, dist: real): Vec2
    requires dist != 0.0
  {
    Div(Sub(p2.pos, p1.pos), dist)
  }

  /** `dist` is a usable distance between the two particles: dividing their
      separation by it, when it is not zero, gives a unit vector. */
  ghost predicate ValidDistance(p1: Particle, p2: Particle, dist: real) {
    dist != 0.0 ==> IsUnit(CollisionNormal(p1, p2, dist))
  }

  lemma NormIsValidDistance(norm: Vec2 -> real, p1: Particle, p2: Particle)
    requires IsNorm(norm)
    ensures ValidDistance(p1, p2, norm(Sub(p1.pos, p2.pos)))
  {
    NormOfReversed(norm, p1.pos, p2.pos);
  }

  /** Swap the velocity components along the normal, keep the tangential ones,
      and push each particle back by half the overlap. */
  function Collide(p1: Particle, p2: Particle, dist: real): (r: (Particle, Particle))
    ensures !Overlapping(dist) ==> r == (p1, p2)
    ensures Add(r.0.pos, r.1.pos) == Add(p1.pos, p2.pos)
    ensures r.0.smoothingRadius == p1.smoothingRadius && r.1.smoothingRadius == p2.smoothingRadius
  {
    if Overlapping(dist) then
      var normal := CollisionNormal(p1, p2, dist);
      var tangent := Perp(normal);
      var v1n, v1t := Dot(p1.vel, normal), Dot(p1.vel, tangent);
      var v2n, v2t := Dot(p2.vel, normal), Dot(p2.vel, tangent);
      var overlap := 2.0 * RADIUS - dist;
      var correction := Scale(normal, overlap / 2.0);
      (p1.(pos := Sub(p1.pos, correction), vel := Add(Scale(normal, v2n), Scale(tangent, v1t))),
       p2.(pos := Add(p2.pos, correction), vel := Add(Scale(normal, v1n), Scale(tangent, v2t))))
    else
      (p1, p2)
  }

  /** After a collision each particle has the other's normal velocity component
      and keeps its own tangential one. */
  lemma CollideExchangesNormalComponents(p1: Particle, p2: Particle, dist: real)
    requires Overlapping(dist) && ValidDistance(p1, p2, dist)
    ensures var n, r := CollisionNormal(p1, p2, dist), Collide(p1, p2, dist);
      && Dot(r.0.vel, n) == Dot(p2.vel, n)
      && Dot(r.1.vel, n) == Dot(p1.vel, n)
      && Dot(r.0.vel, Perp(n)) == Dot(p1.vel, Perp(n))
      && Dot(r.1.vel, Perp(n)) == Dot(p2.vel, Perp(n))
  {
    var n := CollisionNormal(p1, p2, dist);
    ComponentsOf(Dot(p2.vel, n), Dot(p1.vel, Perp(n)), n);
    ComponentsOf(Dot(p1.vel, n), Dot(p2.vel, Perp(n)), n);
  }

  /** The sum of the two velocities (the momentum of two unit masses) is the same
      before and after the collision. */
  lemma CollideConservesMomentum(p1: Particle, p2: Particle, dist: real)
    requires ValidDistance(p1, p2, dist)
    ensures var r := Collide(p1, p2, dist); Add(r.0.vel, r.1.vel) == Add(p1.vel, p2.vel)
  {
    if Overlapping(dist) {
      var n := CollisionNormal(p1, p2, dist);
      var t := Perp(n);
      Decompose(p1.vel, n);
      Decompose(p2.vel, n);
      var a1, b1 := Dot(p1.vel, n), Dot(p1.vel, t);
      var a2, b2 := Dot(p2.vel, n), Dot(p2.vel, t);
      assert Add(Add(Scale(n, a2), Scale(t, b1)), Add(Scale(n, a1), Scale(t, b2)))
          == Add(Add(Scale(n, a1), Scale(t, b1)), Add(Scale(n, a2), Scale(t, b2)));
    }
  }

  /** The sum of the squared speeds (the kinetic energy) is unchanged: the
      exchange is elastic. */
  lemma CollideConservesEnergy(p1: Particle, p2: Particle, dist: real)
    requires ValidDistance(p1, p2, dist)
    ensures var r := Collide(p1, p2, dist);
      Dot(r.0.vel, r.0.vel) + Dot(r.1.vel, r.1.vel) == Dot(p1.vel, p1.vel) + Dot(p2.vel, p2.vel)
  {
    if Overlapping(dist) {
      var n := CollisionNormal(p1, p2, dist);
      var t := Perp(n);
      var a1, b1 := Dot(p1.vel, n), Dot(p1.vel, t);
      var a2, b2 := Dot(p2.vel, n), Dot(p2.vel, t);
      LengthOfCombination(a2, b1, n);
      LengthOfCombination(a1, b2, n);
      Decompose(p1.vel, n);
      Decompose(p2.vel, n);
      LengthOfCombination(a1, b1, n);
      LengthOfCombination(a2, b2, n);
    }
  }

  /** After the positional correction the second particle sits exactly two radii
      from the first, along the original normal. */
  lemma CollideSeparates(p1: Particle, p2: Particle, dist: real)
    requires Overlapping(dist)
    ensures var n, r := CollisionNormal(p1, p2, dist), Collide(p1, p2, dist);
      Sub(r.1.pos, r.0.pos) == Scale(n, 2.0 * RADIUS)
    ensures ValidDistance(p1, p2, dist) ==>
      var r := Collide(p1, p2, dist);
      Dot(Sub(r.1.pos, r.0.pos), Sub(r.1.pos, r.0.pos)) == (2.0 * RADIUS) * (2.0 * RADIUS)
  {
    var n := CollisionNormal(p1, p2, dist);
    var d := Sub(p2.pos, p1.pos);
    assert n.x * dist == d.x && n.y * dist == d.y;
    var s := Scale(n, 2.0 * RADIUS);
    assert Dot(s, s) == 100.0 * Dot(n, n);
  }

  /** A head-on collision: when both velocities lie along the normal, the two
      particles simply exchange velocities. */
  lemma HeadOnExchangesVelocities(p1: Particle, p2: Particle, dist: real, a: real, b: real)
    requires Overlapping(dist) && ValidDistance(p1, p2, dist)
    requires p1.vel == Scale(CollisionNormal(p1, p2, dist), a)
    requires p2.vel == Scale(CollisionNormal(p1, p2, dist), b)
    ensures Collide(p1, p2, dist).0.vel == p2.vel
    ensures Collide(p1, p2, dist).1.vel == p1.vel
  {
    var n := CollisionNormal(p1, p2, dist);
    AlongComponents(a, n);
    AlongComponents(b, n);
  }

  /** The boundary clamp runs before the collision pass, so a collision can push
      a particle back outside the box: here a particle touching the left edge is
      pushed to x = 1.5, left of the bound x = 5. */
  lemma CollisionCanLeaveBox(p1: Particle, p2: Particle)
    requires p1.pos == Vec2(5.0, 100.0) && p2.pos == Vec2(8.0, 100.0)
    ensures InBox(p1.pos) && InBox(p2.pos)
    ensures !InBox(Collide(p1, p2, 3.0).0.pos)
  {
    assert CollisionNormal(p1, p2, 3.0) == Vec2(1.0, 0.0);
    CollideSeparates(p1, p2, 3.0);
  }

  // ---------------------------------------------------------------------------
  // The sequential collision pass (Fluid.py:151-171)

  /** Resolve the pair (i, j) of the current list, measuring their distance now. */
  function CollidePair(ps: seq<Particle>, i: nat, j: nat, norm: Vec2 -> real): (r: seq<Particle>)
    requires i < j < |ps|
    ensures |r| == |ps|
    ensures forall k :: 0 <= k < |ps| && k != i && k != j ==> r[k] == ps[k]
    ensures !Overlapping(norm(Sub(ps[i].pos, ps[j].pos))) ==> r == ps
  {
    var pair := Collide(ps[i], ps[j], norm(Sub(ps[i].pos, ps[j].pos)));
    ps[i := pair.0][j := pair.1]
  }

  /** The rest of row i of the pass: pairs (i, j), (i, j+1), ..., each seeing the
      list as the previous pairs left it. */
  function SweepRow(ps: seq<Particle>, i: nat, j: nat, norm: Vec2 -> real): (r: seq<Particle>)
    requires i < j <= |ps|
    ensures |r| == |ps|
    decreases |ps| - j
  {
    if j == |ps| then ps else SweepRow(CollidePair(ps, i, j, norm), i, j + 1, norm)
  }

  /** The rest of the pass from row i on. */
  function SweepFrom(ps: seq<Particle>, i: nat, norm: Vec2 -> real): (r: seq<Particle>)
    requires i <= |ps|
    ensures |r| == |ps|
    decreases |ps| - i
  {
    if i == |ps| then ps else SweepFrom(SweepRow(ps, i, i + 1, norm), i + 1, norm)
  }

  /** The whole collision pass: rows in ascending order of i, pairs in ascending
      order of j within a row. */
  function Collisions(ps: seq<Particle>, norm: Vec2 -> real): seq<Particle> {
    SweepFrom(ps, 0, norm)
  }

  /** One frame of `update_particles`: the first phase, then the collision pass. */
  function Step(ps: seq<Particle>, gravityEnabled: bool, norm: Vec2 -> real): (qs: seq<Particle>)
    ensures |qs| == |ps|
  {
    Collisions(AdvanceAll(ps, gravityEnabled), norm)
  }

  // ---------------------------------------------------------------------------
  // Conservation over the whole pass

  function Total(vs: seq<Vec2>): Vec2
    decreases |vs|
  {
    if vs == [] then Zero else Add(Total(vs[..|vs| - 1]), vs[|vs| - 1])
  }

  function Velocities(ps: seq<Particle>): seq<Vec2> {
    seq(|ps|, k requires 0 <= k < |ps| => ps[k].vel)
  }

  function Positions(ps: seq<Particle>): seq<Vec2> {
    seq(|ps|, k requires 0 <= k < |ps| => ps[k].pos)
  }

  /** Replacing one element changes the total by the difference. */
  lemma {:induction false} TotalUpdate(vs: seq<Vec2>, i: nat, a: Vec2)
    requires i < |vs|
    ensures Total(vs[i := a]) == Add(Sub(Total(vs), vs[i]), a)
    decreases |vs|
  {
    var n := |vs| - 1;
    var ws := vs[i := a];
    assert ws[..n] == if i < n then vs[..n][i := a] else vs[..n];
    if i < n {
      TotalUpdate(vs[..n], i, a);
    }
  }

  /** Replacing two elements by two others with the same sum keeps the total. */
  lemma TotalPairUpdate(vs: seq<Vec2>, i: nat, j: nat, a: Vec2, b: Vec2)
    requires i < |vs| && j < |vs| && i != j
    requires Add(a, b) == Add(vs[i], vs[j])
    ensures Total(vs[i := a][j := b]) == Total(vs)
  {
    TotalUpdate(vs, i, a);
    TotalUpdate(vs[i := a], j, b);
  }

  /** Resolving one pair keeps the total velocity and the total position (the
      centre of mass) of the whole list. */
  lemma CollidePairConserves(ps: seq<Particle>, i: nat, j: nat, norm: Vec2 -> real)
    requires i < j < |ps| && IsNorm(norm)
    ensures Total(Velocities(CollidePair(ps, i, j, norm))) == Total(Velocities(ps))
    ensures Total(Positions(CollidePair(ps, i, j, norm))) == Total(Positions(ps))
  {
    var dist := norm(Sub(ps[i].pos, ps[j].pos));
    var pair := Collide(ps[i], ps[j], dist);
    NormIsValidDistance(norm, ps[i], ps[j]);
    CollideConservesMomentum(ps[i], ps[j], dist);
    var qs := CollidePair(ps, i, j, norm);
    assert Velocities(qs) == Velocities(ps)[i := pair.0.vel][j := pair.1.vel];
    assert Positions(qs) == Positions(ps)[i := pair.0.pos][j := pair.1.pos];
    TotalPairUpdate(Velocities(ps), i, j, pair.0.vel, pair.1.vel);
    TotalPairUpdate(Positions(ps), i, j, pair.0.pos, pair.1.pos);
  }

  /** `qs` has the same total velocity and the same total position as `ps`. */
  ghost predicate SameTotals(ps: seq<Particle>, qs: seq<Particle>) {
    Total(Velocities(qs)) == Total(Velocities(ps)) && Total(Positions(qs)) == Total(Positions(ps))
  }

  lemma {:induction false} SweepRowConserves(ps: seq<Particle>, i: nat, j: nat, norm: Vec2 -> real)
    requires i < j <= |ps| && IsNorm(norm)
    ensures SameTotals(ps, SweepRow(ps, i, j, norm))
    decreases |ps| - j
  {
    if j < |ps| {
      var qs := CollidePair(ps, i, j, norm);
      CollidePairConserves(ps, i, j, norm);
      SweepRowConserves(qs, i, j + 1, norm);
    }
  }

  lemma {:induction false} SweepFromConserves(ps: seq<Particle>, i: nat, norm: Vec2 -> real)
    requires i <= |ps| && IsNorm(norm)
    ensures SameTotals(ps, SweepFrom(ps, i, norm))
    decreases |ps| - i
  {
    if i < |ps| {
      var qs := SweepRow(ps, i, i + 1, norm);
      SweepRowConserves(ps, i, i + 1, norm);
      SweepFromConserves(qs, i + 1, norm);
    }
  }

  /** The collision pass as a whole conserves the total velocity and the centre of
      mass of the particles; it only redistributes them. */
  lemma CollisionsConserve(ps: seq<Particle>, norm: Vec2 -> real)
    requires IsNorm(norm)
    ensures |Collisions(ps, norm)| == |ps|
    ensures Total(Velocities(Collisions(ps, norm))) == Total(Velocities(ps))
    ensures Total(Positions(Collisions(ps, norm))) == Total(Positions(ps))
  {
    SweepFromConserves(ps, 0, norm);
  }
}
