/** The slider arithmetic that turns a mouse position into a particle count or a
    smoothing radius (Fluid.py:199-217), and the construction of a freshly spawned
    particle from its random draws (Fluid.py:93-101). */
module Controls {
  import opened Vectors
  import opened Physics

  const PARTICLE_LIMIT_MIN: int := 10
  const PARTICLE_LIMIT_MAX: int := 300
  const SMOOTHING_RADIUS_MIN: int := 20
  const SMOOTHING_RADIUS_MAX: int := 150

  /** Both sliders that are modelled share this geometry: 300 pixels wide,
      centred in the 800-pixel window, with a 20-pixel handle. */
  const SLIDER_WIDTH: int := 300
  const SLIDER_X: int := (800 - SLIDER_WIDTH) / 2
  const HANDLE_WIDTH: int := 20

  // ---------------------------------------------------------------------------
  // Slider mapping (Fluid.py:201-203, 215-217)

  /** Python's `int` on a float: truncation toward zero. */
  function Trunc(x: real): (n: int)
    ensures 0.0 <= x ==> n as real <= x < n as real + 1.0
    ensures x < 0.0 ==> n as real - 1.0 < x <= n as real
  {
    if x >= 0.0 then x.Floor else -((-x).Floor)
  }

  lemma TruncMonotone(x: real, y: real)
    requires x <= y
    ensures Trunc(x) <= Trunc(y)
  {
  }

  /** Truncation keeps a value between two integers between them. */
  lemma TruncWithin(x: real, lo: int, hi: int)
    requires lo as real <= x <= hi as real
    ensures lo <= Trunc(x) <= hi
  {
  }

  function Max(a: int, b: int): int { if a >= b then a else b }
  function Min(a: int, b: int): int { if a <= b then a else b }

  /** The left edge of the handle: centred on the mouse, but kept inside the
      slider bar. */
  function HandleX(mouseX: int): (h: int)
    ensures SLIDER_X <= h <= SLIDER_X + SLIDER_WIDTH - HANDLE_WIDTH
    ensures SLIDER_X <= mouseX - HANDLE_WIDTH / 2 <= SLIDER_X + SLIDER_WIDTH - HANDLE_WIDTH
            ==> h == mouseX - HANDLE_WIDTH / 2
  {
    Max(SLIDER_X, Min(mouseX - HANDLE_WIDTH / 2, SLIDER_X + SLIDER_WIDTH - HANDLE_WIDTH))
  }

  /** Where the centre of the handle sits along the bar, as a fraction. Because the
      handle stays inside the bar, its centre never reaches either end. */
  function RelativePos(handleX: int): (rel: real)
    requires SLIDER_X <= handleX <= SLIDER_X + SLIDER_WIDTH - HANDLE_WIDTH
    ensures 10.0 / 300.0 <= rel <= 290.0 / 300.0
  {
    (handleX + HANDLE_WIDTH / 2 - SLIDER_X) as real / SLIDER_WIDTH as real
  }

  lemma ProductNonNegative(a: real, b: real)
    requires 0.0 <= a && 0.0 <= b
    ensures 0.0 <= a * b
  {
  }

  /** The point a fraction `rel` of the way from `lo` to `hi`. */
  function Lerp(lo: int, hi: int, rel: real): (x: real)
    requires lo <= hi && 0.0 <= rel <= 1.0
    ensures lo as real <= x <= hi as real
    ensures rel == 0.0 ==> x == lo as real
    ensures rel == 1.0 ==> x == hi as real
  {
    var span := (hi - lo) as real;
    ProductNonNegative(rel, span);
    ProductNonNegative(1.0 - rel, span);
    assert (1.0 - rel) * span == span - rel * span;
    lo as real + rel * span
  }

  lemma LerpMonotone(lo: int, hi: int, r1: real, r2: real)
    requires lo <= hi && 0.0 <= r1 <= r2 <= 1.0
    ensures Lerp(lo, hi, r1) <= Lerp(lo, hi, r2)
  {
    var span := (hi - lo) as real;
    assert (r2 - r1) * span >= 0.0;
    assert r2 * span - r1 * span == (r2 - r1) * span;
  }

  /** The value a slider over [lo, hi] reports when dragged to `mouseX`. */
  function SliderValue(mouseX: int, lo: int, hi: int): (v: int)
    requires lo <= hi
    ensures lo <= v <= hi
  {
    var x := Lerp(lo, hi, RelativePos(HandleX(mouseX)));
    TruncWithin(x, lo, hi);
    Trunc(x)
  }

  /** Dragging further right never lowers the value. */
  lemma SliderMonotone(m1: int, m2: int, lo: int, hi: int)
    requires lo <= hi && m1 <= m2
    ensures SliderValue(m1, lo, hi) <= SliderValue(m2, lo, hi)
  {
    var r1, r2 := RelativePos(HandleX(m1)), RelativePos(HandleX(m2));
    LerpMonotone(lo, hi, r1, r2);
    TruncMonotone(Lerp(lo, hi, r1), Lerp(lo, hi, r2));
  }

  /** The particle count chosen by the particle slider. */
  function TargetParticles(mouseX: int): (n: int)
    ensures PARTICLE_LIMIT_MIN <= n <= PARTICLE_LIMIT_MAX
  {
    SliderValue(mouseX, PARTICLE_LIMIT_MIN, PARTICLE_LIMIT_MAX)
  }

  /** The smoothing radius chosen by the smoothing slider. */
  function SmoothingRadiusFor(mouseX: int): (r: int)
    ensures SMOOTHING_RADIUS_MIN <= r <= SMOOTHING_RADIUS_MAX
  {
    SliderValue(mouseX, SMOOTHING_RADIUS_MIN, SMOOTHING_RADIUS_MAX)
  }

  /** The particle slider's actual range is 19 to 290: since the handle's centre
      stays 10 pixels inside each end of the bar, the limits 10 and 300 are never
      reached. Both ends are attained. */
  lemma TargetParticlesRange(mouseX: int)
    ensures 19 <= TargetParticles(mouseX) <= 290
    ensures mouseX <= SLIDER_X + HANDLE_WIDTH / 2 ==> TargetParticles(mouseX) == 19
    ensures mouseX >= SLIDER_X + SLIDER_WIDTH - HANDLE_WIDTH / 2 ==> TargetParticles(mouseX) == 290
  {
    var rel := RelativePos(HandleX(mouseX));
    var x := Lerp(PARTICLE_LIMIT_MIN, PARTICLE_LIMIT_MAX, rel);
    assert x == 10.0 + rel * 290.0;
    assert 19.0 <= x < 291.0;
  }

  /** Likewise the smoothing slider reaches only 24 to 145 of its nominal range
      20 to 150. */
  lemma SmoothingRadiusRange(mouseX: int)
    ensures 24 <= SmoothingRadiusFor(mouseX) <= 145
  {
    var rel := RelativePos(HandleX(mouseX));
    var x := Lerp(SMOOTHING_RADIUS_MIN, SMOOTHING_RADIUS_MAX, rel);
    assert x == 20.0 + rel * 130.0;
    assert 24.0 <= x < 146.0;
  }

  // ---------------------------------------------------------------------------
  // Spawning (Fluid.py:93-101)

  /** The two `np.random.rand(2)` results that one spawned particle consumes: one
      for its position and one for its velocity. */
  datatype Draw = Draw(forPos: Vec2, forVel: Vec2)

  /** Both components lie in [0, 1), the range of `np.random.rand`. */
  ghost predicate InUnitSquare(v: Vec2) {
    0.0 <= v.x < 1.0 && 0.0 <= v.y < 1.0
  }

  ghost predicate ValidDraw(d: Draw) {
    InUnitSquare(d.forPos) && InUnitSquare(d.forVel)
  }

  ghost predicate InWindow(pos: Vec2) {
    0.0 <= pos.x < WIDTH && 0.0 <= pos.y < HEIGHT
  }

  ghost predicate SpawnVelocity(vel: Vec2) {
    -5.0 <= vel.x < 5.0 && -5.0 <= vel.y < 5.0
  }

  /** A new particle: the position scales the first draw to the window, the
      velocity centres the second draw on zero and scales it by 10. */
  function Spawned(d: Draw, smoothingRadius: int): (p: Particle)
    ensures p.smoothingRadius == smoothingRadius
    ensures ValidDraw(d) ==> InWindow(p.pos) && SpawnVelocity(p.vel)
  {
    Particle(Vec2(d.forPos.x * WIDTH, d.forPos.y * HEIGHT),
             Scale(Sub(d.forVel, Vec2(0.5, 0.5)), 10.0),
             smoothingRadius)
  }

  /** Every point of the window can be spawned at, and every velocity in
      [-5, 5)²: the draw that produces it is found by undoing the scaling. */
  lemma SpawnedCoversRange(pos: Vec2, vel: Vec2, smoothingRadius: int)
    requires InWindow(pos) && SpawnVelocity(vel)
    ensures var d := Draw(Vec2(pos.x / WIDTH, pos.y / HEIGHT), Vec2(vel.x / 10.0 + 0.5, vel.y / 10.0 + 0.5));
      ValidDraw(d) && Spawned(d, smoothingRadius) == Particle(pos, vel, smoothingRadius)
  {
  }

  ghost predicate AllValid(draws: seq<Draw>) {
    forall k :: 0 <= k < |draws| ==> ValidDraw(draws[k])
  }

  /** The particles spawned from a sequence of draws, in order. */
  function SpawnAll(draws: seq<Draw>, smoothingRadius: int): (ps: seq<Particle>)
    ensures |ps| == |draws|
    ensures forall k :: 0 <= k < |ps| ==> ps[k].smoothingRadius == smoothingRadius
    ensures AllValid(draws) ==>
      forall k :: 0 <= k < |ps| ==> InWindow(ps[k].pos) && SpawnVelocity(ps[k].vel)
  {
    seq(|draws|, k requires 0 <= k < |draws| => Spawned(draws[k], smoothingRadius))
  }

  /** Spawning from two batches of draws one after the other gives the same
      particles as spawning from all of them at once. */
  lemma SpawnAllAppend(d1: seq<Draw>, d2: seq<Draw>, smoothingRadius: int)
    ensures SpawnAll(d1 + d2, smoothingRadius) == SpawnAll(d1, smoothingRadius) + SpawnAll(d2, smoothingRadius)
  {
  }
}
