/** The smoothing kernel and the density estimate shown under the mouse cursor
    (Fluid.py:105-118). Distances come from the Euclidean length, which the model
    takes as a parameter (see Vectors.IsNorm). */
module Kernel {
  import opened Vectors

  /** Every particle has mass 1 (Fluid.py:112). */
  const MASS: real := 1.0

  /** Linear falloff: full weight at distance 0, none at or beyond `radius`. */
  function SmoothingKernel(radius: real, dst: real): (w: real)
    requires radius > 0.0
    ensures dst > radius ==> w == 0.0
    ensures dst == 0.0 ==> w == 1.0
    ensures dst == radius ==> w == 0.0
    ensures 0.0 <= dst <= radius ==> 0.0 <= w <= 1.0
  {
    if dst > radius then 0.0 else 1.0 - dst / radius
  }

  /** The kernel never increases with distance. */
  lemma KernelMonotone(radius: real, d1: real, d2: real)
    requires radius > 0.0 && 0.0 <= d1 <= d2
    ensures SmoothingKernel(radius, d2) <= SmoothingKernel(radius, d1)
  {
    if d2 <= radius {
      DivMonotone(d1, d2, radius);
    }
  }

  lemma DivMonotone(a: real, b: real, r: real)
    requires r > 0.0 && a <= b
    ensures a / r <= b / r
  {
  }

  /** What one neighbour at distance `dst` adds to the density sum: only a
      neighbour strictly inside the radius counts (Fluid.py:115-117). */
  function Influence(radius: real, dst: real): (c: real)
    requires radius > 0.0
    ensures dst >= radius ==> c == 0.0
    ensures 0.0 <= dst < radius ==> 0.0 < c <= 1.0
    ensures dst == 0.0 ==> c == 1.0
  {
    if dst < radius then MASS * SmoothingKernel(radius, dst) else 0.0
  }

  ghost predicate AllNonNegative(dists: seq<real>) {
    forall k :: 0 <= k < |dists| ==> dists[k] >= 0.0
  }

  /** The density sum over the distances of all particles to the sample point,
      accumulated in list order. */
  function Density(dists: seq<real>, radius: real): (d: real)
    requires radius > 0.0
    ensures AllNonNegative(dists) ==> 0.0 <= d <= |dists| as real
    decreases |dists|
  {
    if dists == [] then 0.0
    else Density(dists[..|dists| - 1], radius) + Influence(radius, dists[|dists| - 1])
  }

  /** The distances that lie strictly inside the radius, in order. */
  function Near(dists: seq<real>, radius: real): (r: seq<real>)
    ensures |r| <= |dists|
    ensures forall k :: 0 <= k < |r| ==> r[k] < radius
    ensures AllNonNegative(dists) ==> AllNonNegative(r)
    decreases |dists|
  {
    if dists == [] then []
    else
      var rest := Near(dists[..|dists| - 1], radius);
      if dists[|dists| - 1] < radius then rest + [dists[|dists| - 1]] else rest
  }

  /** Only particles strictly inside the radius contribute: the density equals the
      density of the near particles alone, and so is at most their number. */
  lemma {:induction false} DensityOnlyNear(dists: seq<real>, radius: real)
    requires radius > 0.0 && AllNonNegative(dists)
    ensures Density(dists, radius) == Density(Near(dists, radius), radius)
    ensures Density(dists, radius) <= |Near(dists, radius)| as real
    decreases |dists|
  {
    if dists != [] {
      var init, last := dists[..|dists| - 1], dists[|dists| - 1];
      assert AllNonNegative(init);
      DensityOnlyNear(init, radius);
      var rest := Near(init, radius);
      if last < radius {
        assert (rest + [last])[..|rest + [last]| - 1] == rest;
      }
    }
  }

  /** The density is positive exactly when some particle lies strictly inside
      the radius. */
  lemma {:induction false} DensityPositiveIff(dists: seq<real>, radius: real)
    requires radius > 0.0 && AllNonNegative(dists)
    ensures Density(dists, radius) > 0.0 <==> exists k :: 0 <= k < |dists| && dists[k] < radius
    decreases |dists|
  {
    if dists != [] {
      var init, last := dists[..|dists| - 1], dists[|dists| - 1];
      assert AllNonNegative(init);
      DensityPositiveIff(init, radius);
      if exists k :: 0 <= k < |dists| && dists[k] < radius {
        var k :| 0 <= k < |dists| && dists[k] < radius;
        if k < |init| {
          assert init[k] == dists[k];
        }
      } else {
        forall k | 0 <= k < |init| ensures init[k] >= radius {
          assert init[k] == dists[k];
        }
      }
    }
  }

  /** The distance from the sample point to every position, as `np.linalg.norm`
      computes it (Fluid.py:114). */
  function Distances(sample: Vec2, positions: seq<Vec2>, norm: Vec2 -> real): (ds: seq<real>)
    ensures |ds| == |positions|
  {
    seq(|positions|, k requires 0 <= k < |positions| => norm(Sub(positions[k], sample)))
  }

  lemma DistancesNonNegative(sample: Vec2, positions: seq<Vec2>, norm: Vec2 -> real)
    requires IsNorm(norm)
    ensures AllNonNegative(Distances(sample, positions, norm))
  {
    var ds := Distances(sample, positions, norm);
    forall k | 0 <= k < |ds| ensures ds[k] >= 0.0 {
      assert ds[k] == Length(norm, Sub(positions[k], sample));
    }
  }

  /** `calculate_density`: the loop accumulating the kernel-weighted mass of every
      position strictly inside `radius` of the sample point. */
  method CalculateDensity(sample: Vec2, positions: seq<Vec2>, radius: real, norm: Vec2 -> real)
    returns (density: real)
    requires radius > 0.0
    ensures density == Density(Distances(sample, positions, norm), radius)
    ensures IsNorm(norm) ==> 0.0 <= density <= |positions| as real
  {
    ghost var dists := Distances(sample, positions, norm);
    density := 0.0;
    var k := 0;
    while k < |positions|
      invariant 0 <= k <= |positions|
      invariant density == Density(dists[..k], radius)
    {
      var dst := norm(Sub(positions[k], sample));
      if dst < radius {
        var influence := SmoothingKernel(radius, dst);
        density := density + MASS * influence;
      }
      assert dists[..k + 1][..k] == dists[..k];
      k := k + 1;
    }
    assert dists[..k] == dists;
    if IsNorm(norm) {
      DistancesNonNegative(sample, positions, norm);
    }
  }

  /** A single particle sitting exactly at the sample point gives density 1. */
  lemma DensityOfLoneParticle(p: Vec2, radius: real, norm: Vec2 -> real)
    requires radius > 0.0 && IsNorm(norm)
    ensures Density(Distances(p, [p], norm), radius) == 1.0
  {
    assert Sub(p, p) == Zero;
    assert Length(norm, Sub(p, p)) == 0.0;
    assert Distances(p, [p], norm) == [0.0];
  }
}
