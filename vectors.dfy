/** Two-dimensional vectors over the reals: the two-element numpy arrays that hold
    every position, velocity and force of the simulation. Floating-point rounding is
    not modelled; all identities below hold in exact arithmetic. */
module Vectors {

  datatype Vec2 = Vec2(x: real, y: real)

  const Zero: Vec2 := Vec2(0.0, 0.0)

  function Add(a: Vec2, b: Vec2): Vec2 { Vec2(a.x + b.x, a.y + b.y) }

  function Sub(a: Vec2, b: Vec2): Vec2 { Vec2(a.x - b.x, a.y - b.y) }

  function Scale(a: Vec2, k: real): Vec2 { Vec2(a.x * k, a.y * k) }

  function Div(a: Vec2, k: real): Vec2
    requires k != 0.0
  {
    Vec2(a.x / k, a.y / k)
  }

  function Dot(a: Vec2, b: Vec2): real { a.x * b.x + a.y * b.y }

  /** The vector turned a quarter turn counter-clockwise: (-n.y, n.x). */
  function Perp(n: Vec2): Vec2 { Vec2(-n.y, n.x) }

  ghost predicate IsUnit(n: Vec2) { Dot(n, n) == 1.0 }

  /** The length of `v` as `norm` measures it. Stating the facts about `norm`
      through this name keeps them from being applied to every length a proof
      mentions; a proof that needs them mentions `Length` explicitly. */
  function Length(norm: Vec2 -> real, v: Vec2): real {
    norm(v)
  }

  /** `norm` behaves as the Euclidean length `np.linalg.norm`: it is non-negative,
      zero exactly at the zero vector, and dividing a vector by its length gives a
      vector of length one. These three facts characterise the Euclidean length,
      and they are all the model assumes of it. */
  ghost predicate IsNorm(norm: Vec2 -> real) {
    forall v ::
      && Length(norm, v) >= 0.0
      && (Length(norm, v) == 0.0 <==> v == Zero)
      && (Length(norm, v) != 0.0 ==> IsUnit(Div(v, Length(norm, v))))
  }

  /** Reversing a vector does not change its direction's length. */
  lemma NormOfReversed(norm: Vec2 -> real, a: Vec2, b: Vec2)
    requires IsNorm(norm)
    ensures norm(Sub(a, b)) != 0.0 ==> IsUnit(Div(Sub(b, a), norm(Sub(a, b))))
  {
    var l := Length(norm, Sub(a, b));
    if l != 0.0 {
      var u, w := Div(Sub(a, b), l), Div(Sub(b, a), l);
      assert w == Vec2(-u.x, -u.y);
      assert Dot(w, w) == Dot(u, u);
    }
  }

  /** A unit vector `n` and its perpendicular form an orthonormal basis: every
      vector is the sum of its components along them. */
  lemma Decompose(v: Vec2, n: Vec2)
    requires IsUnit(n)
    ensures Add(Scale(n, Dot(v, n)), Scale(Perp(n), Dot(v, Perp(n)))) == v
  {
    var w := Add(Scale(n, Dot(v, n)), Scale(Perp(n), Dot(v, Perp(n))));
    assert w.x == v.x * (n.x * n.x + n.y * n.y);
    assert w.y == v.y * (n.x * n.x + n.y * n.y);
  }

  /** The components of `a·n + b·perp(n)` along `n` and `perp(n)` are `a` and `b`. */
  lemma ComponentsOf(a: real, b: real, n: Vec2)
    requires IsUnit(n)
    ensures Dot(Add(Scale(n, a), Scale(Perp(n), b)), n) == a
    ensures Dot(Add(Scale(n, a), Scale(Perp(n), b)), Perp(n)) == b
  {
    var w := Add(Scale(n, a), Scale(Perp(n), b));
    assert Dot(w, n) == a * (n.x * n.x + n.y * n.y);
    assert Dot(w, Perp(n)) == b * (n.x * n.x + n.y * n.y);
  }

  /** The squared length of `a·n + b·perp(n)` for a unit `n` is `a² + b²`. */
  lemma LengthOfCombination(a: real, b: real, n: Vec2)
    requires IsUnit(n)
    ensures Dot(Add(Scale(n, a), Scale(Perp(n), b)), Add(Scale(n, a), Scale(Perp(n), b))) == a * a + b * b
  {
    var w := Add(Scale(n, a), Scale(Perp(n), b));
    assert Dot(w, w) == (a * a + b * b) * (n.x * n.x + n.y * n.y);
  }

  /** A multiple of a unit vector `n` has component `a` along `n` and none across it. */
  lemma AlongComponents(a: real, n: Vec2)
    requires IsUnit(n)
    ensures Dot(Scale(n, a), n) == a
    ensures Dot(Scale(n, a), Perp(n)) == 0.0
  {
    assert Dot(Scale(n, a), n) == a * (n.x * n.x + n.y * n.y);
  }
}
