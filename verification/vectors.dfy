/**
 Plane vectors over exact reals, the agent record shared by both flocking
 variants, and the square-root oracle used wherever a rule divides by a
 Euclidean norm.

 Dafny's reals have no built-in square root, so every operation that needs
 one takes a function `sqrt: real -> real` together with the requirement
 `IsSqrt(sqrt)`: on non-negative arguments it returns the non-negative root.
 */
module Vectors {

  datatype Vec2 = Vec2(x: real, y: real)

  /** Optional value; `None` marks a degenerate numeric result. */
  datatype Option<+T> = None | Some(value: T)

  /** A point agent (boid): position in meters, velocity in meters per second. */
  datatype Agent = Agent(pos: Vec2, vel: Vec2)

  const Zero: Vec2 := Vec2(0.0, 0.0)

  function Add(a: Vec2, b: Vec2): Vec2 { Vec2(a.x + b.x, a.y + b.y) }

  function Sub(a: Vec2, b: Vec2): Vec2 { Vec2(a.x - b.x, a.y - b.y) }

  function Scale(k: real, a: Vec2): Vec2 { Vec2(k * a.x, k * a.y) }

  function Dot(a: Vec2, b: Vec2): real { a.x * b.x + a.y * b.y }

  /** The z-component of the 3D cross product; zero iff `a` and `b` are parallel. */
  function Cross(a: Vec2, b: Vec2): real { a.x * b.y - a.y * b.x }

  /** Squared Euclidean length; non-negative. */
  function NormSq(a: Vec2): (n: real)
    ensures 0.0 <= n
  {
    a.x * a.x + a.y * a.y
  }

  function DistSq(a: Vec2, b: Vec2): real { NormSq(Sub(a, b)) }

  /** `sqrt` is a square root on the non-negative reals. */
  ghost predicate IsSqrt(sqrt: real -> real)
  {
    forall t :: 0.0 <= t ==> 0.0 <= sqrt(t) && sqrt(t) * sqrt(t) == t
  }

  /** Euclidean length, the `np.linalg.norm` of the source. */
  function Norm(sqrt: real -> real, a: Vec2): (n: real)
    requires IsSqrt(sqrt)
    ensures 0.0 <= n && n * n == NormSq(a)
  {
    sqrt(NormSq(a))
  }

  /** Sum of a sequence, accumulated left to right as the source's loops do. */
  function Sum(vs: seq<Vec2>): Vec2
  {
    if |vs| == 0 then Zero else Add(Sum(vs[..|vs| - 1]), vs[|vs| - 1])
  }

  function Positions(flock: seq<Agent>): (ps: seq<Vec2>)
    ensures |ps| == |flock| && forall i :: 0 <= i < |flock| ==> ps[i] == flock[i].pos
  {
    seq(|flock|, i requires 0 <= i < |flock| => flock[i].pos)
  }

  function Velocities(flock: seq<Agent>): (vs: seq<Vec2>)
    ensures |vs| == |flock| && forall i :: 0 <= i < |flock| ==> vs[i] == flock[i].vel
  {
    seq(|flock|, i requires 0 <= i < |flock| => flock[i].vel)
  }

  /** Arithmetic mean of a non-empty sequence. */
  function Mean(vs: seq<Vec2>): (m: Vec2)
    requires 0 < |vs|
    ensures Scale(|vs| as real, m) == Sum(vs)
  {
    Scale(1.0 / |vs| as real, Sum(vs))
  }

  // ---------------------------------------------------------------------------
  // Facts about the square-root oracle

  /** On non-negative reals, squaring preserves and reflects strict order. */
  lemma SquareLess(a: real, b: real)
    requires 0.0 <= a && 0.0 <= b
    ensures a < b <==> a * a < b * b
  {
    var aa, ab, bb := a * a, a * b, b * b;
    if a < b {
      assert aa <= ab;
      assert ab < bb;
    } else {
      assert bb <= ab;
      assert ab <= aa;
    }
  }

  /** On non-negative reals, squaring preserves and reflects order. */
  lemma SquareAtMost(a: real, b: real)
    requires 0.0 <= a && 0.0 <= b
    ensures a <= b <==> a * a <= b * b
  {
    SquareLess(b, a);
  }

  /** The root the oracle returns is the unique non-negative one. */
  lemma SqrtUnique(sqrt: real -> real, t: real, s: real)
    requires IsSqrt(sqrt)
    requires 0.0 <= s && s * s == t
    ensures sqrt(t) == s
  {
    var r := sqrt(t);
    SquareLess(r, s);
    SquareLess(s, r);
  }

  /** A strict upper bound on a root is the same as a strict bound on its square. */
  lemma SqrtBelow(sqrt: real -> real, t: real, r: real)
    requires IsSqrt(sqrt) && 0.0 <= t
    ensures sqrt(t) < r <==> 0.0 < r && t < r * r
  {
    if 0.0 < r {
      SquareLess(sqrt(t), r);
    }
  }

  /** A non-strict upper bound on a root is the same as one on its square. */
  lemma SqrtAtMost(sqrt: real -> real, t: real, r: real)
    requires IsSqrt(sqrt) && 0.0 <= t
    ensures sqrt(t) <= r <==> 0.0 <= r && t <= r * r
  {
    if 0.0 <= r {
      SquareAtMost(sqrt(t), r);
    }
  }

  /** The root of a positive number is positive. */
  lemma SqrtPositive(sqrt: real -> real, t: real)
    requires IsSqrt(sqrt) && 0.0 < t
    ensures 0.0 < sqrt(t)
  {
  }

  // ---------------------------------------------------------------------------
  // Facts about vectors

  lemma NormSqScale(k: real, a: Vec2)
    ensures NormSq(Scale(k, a)) == k * k * NormSq(a)
  {
    calc {
      NormSq(Scale(k, a));
      (k * a.x) * (k * a.x) + (k * a.y) * (k * a.y);
      k * k * (a.x * a.x) + k * k * (a.y * a.y);
    }
  }

  /** Dividing by the norm gives a unit vector. */
  lemma UnitHasNormOne(sqrt: real -> real, a: Vec2)
    requires IsSqrt(sqrt) && 0.0 < NormSq(a)
    ensures Norm(sqrt, a) > 0.0
    ensures NormSq(Scale(1.0 / Norm(sqrt, a), a)) == 1.0
  {
    var n := Norm(sqrt, a);
    SqrtPositive(sqrt, NormSq(a));
    NormSqScale(1.0 / n, a);
    InverseSquare(n);
  }

  lemma InverseSquare(n: real)
    requires 0.0 < n
    ensures (1.0 / n) * (1.0 / n) * (n * n) == 1.0
  {
    var u := 1.0 / n;
    assert u * n == 1.0;
    assert u * u * (n * n) == (u * n) * (u * n);
  }

  /** Rescaling a nonzero vector by `m / ‖a‖` gives a vector of length `m`. */
  lemma RescaleHasNorm(sqrt: real -> real, a: Vec2, m: real)
    requires IsSqrt(sqrt) && 0.0 < NormSq(a)
    ensures NormSq(Scale(m, Scale(1.0 / Norm(sqrt, a), a))) == m * m
  {
    var n := Norm(sqrt, a);
    UnitHasNormOne(sqrt, a);
    NormSqScale(m, Scale(1.0 / n, a));
  }

  /** Cauchy-Schwarz in the plane, from Lagrange's identity. */
  lemma CauchySchwarz(a: Vec2, b: Vec2)
    ensures Dot(a, b) * Dot(a, b) <= NormSq(a) * NormSq(b)
  {
    assert NormSq(a) * NormSq(b) == Dot(a, b) * Dot(a, b) + Cross(a, b) * Cross(a, b);
  }

  /** Adding a unit vector to a vector of length at most `k` gives length at most `k + 1`. */
  lemma AddUnitBound(s: Vec2, u: Vec2, k: real)
    requires 0.0 <= k && NormSq(s) <= k * k && NormSq(u) == 1.0
    ensures NormSq(Add(s, u)) <= (k + 1.0) * (k + 1.0)
  {
    var d := Dot(s, u);
    CauchySchwarz(s, u);
    assert d * d <= k * k;
    if 0.0 <= d {
      SquareAtMost(d, k);
    }
    var w := Add(s, u);
    assert w.x * w.x == s.x * s.x + 2.0 * (s.x * u.x) + u.x * u.x;
    assert w.y * w.y == s.y * s.y + 2.0 * (s.y * u.y) + u.y * u.y;
    assert NormSq(w) == NormSq(s) + 2.0 * d + NormSq(u);
  }

  /** Summing is additive over the split of a sequence into prefix and last element. */
  lemma SumSnoc(vs: seq<Vec2>, v: Vec2)
    ensures Sum(vs + [v]) == Add(Sum(vs), v)
  {
    assert (vs + [v])[..|vs|] == vs;
  }

  lemma PositionsSnoc(flock: seq<Agent>, a: Agent)
    ensures Positions(flock + [a]) == Positions(flock) + [a.pos]
  {
    assert Positions(flock + [a]) == Positions(flock) + [a.pos];
  }

  lemma VelocitiesSnoc(flock: seq<Agent>, a: Agent)
    ensures Velocities(flock + [a]) == Velocities(flock) + [a.vel]
  {
    assert Velocities(flock + [a]) == Velocities(flock) + [a.vel];
  }

  /** The root of zero is zero. */
  lemma SqrtZero(sqrt: real -> real)
    requires IsSqrt(sqrt)
    ensures sqrt(0.0) == 0.0
  {
    SqrtUnique(sqrt, 0.0, 0.0);
  }

  /**
   Rescaling a nonzero vector `a` to length `m >= 0` by `m / ‖a‖` keeps it on
   the line of `a` (zero cross product) and, for `m > 0`, on the same side
   (positive dot product).
   */
  lemma RescaleKeepsDirection(sqrt: real -> real, a: Vec2, m: real)
    requires IsSqrt(sqrt) && 0.0 < NormSq(a) && 0.0 <= m
    ensures Cross(Scale(m, Scale(1.0 / Norm(sqrt, a), a)), a) == 0.0
    ensures 0.0 < m ==> 0.0 < Dot(Scale(m, Scale(1.0 / Norm(sqrt, a), a)), a)
  {
    var n := Norm(sqrt, a);
    SqrtPositive(sqrt, NormSq(a));
    var k := m * (1.0 / n);
    assert Scale(m, Scale(1.0 / n, a)) == Scale(k, a);
    assert Dot(Scale(k, a), a) == k * NormSq(a);
    if 0.0 < m {
      assert 0.0 < 1.0 / n;
      PositiveProduct(m, 1.0 / n);
      PositiveProduct(k, NormSq(a));
    }
  }

  lemma PositiveProduct(a: real, b: real)
    requires 0.0 < a && 0.0 < b
    ensures 0.0 < a * b
  {
  }

  lemma ScaleSucc(k: real, a: Vec2)
    ensures Scale(k + 1.0, a) == Add(Scale(k, a), a)
  {
  }

  /** If `k(c + p) = t` and `s + t = kp` then `s = -kc`. */
  lemma ScaleNegate(k: real, c: Vec2, p: Vec2, s: Vec2, t: Vec2)
    requires Scale(k, Add(c, p)) == t && Add(s, t) == Scale(k, p)
    ensures Scale(-k, c) == s
  {
  }

  /** A vector's length is positive exactly when its squared length is. */
  lemma NormPositive(sqrt: real -> real, a: Vec2)
    requires IsSqrt(sqrt)
    ensures 0.0 < Norm(sqrt, a) <==> 0.0 < NormSq(a)
  {
    if 0.0 < NormSq(a) {
      SqrtPositive(sqrt, NormSq(a));
    } else {
      SqrtZero(sqrt);
    }
  }

  /** A draw in `[-1, 1]` has square at most one. */
  lemma UnitIntervalSquare(d: real)
    ensures -1.0 <= d <= 1.0 ==> d * d <= 1.0
  {
    if 0.0 <= d <= 1.0 {
      SquareAtMost(d, 1.0);
    } else if -1.0 <= d < 0.0 {
      SquareAtMost(-d, 1.0);
      assert (-d) * (-d) == d * d;
    }
  }

  /** The sum of the deviations `vs[i] - p`, accumulated left to right. */
  function Deviations(vs: seq<Vec2>, p: Vec2): Vec2
  {
    if |vs| == 0 then Zero
    else Add(Deviations(vs[..|vs| - 1], p), Sub(vs[|vs| - 1], p))
  }

  /** Summing deviations from `p` is summing the values and taking away `|vs|` copies of `p`. */
  lemma {:induction false} DeviationsClosedForm(vs: seq<Vec2>, p: Vec2)
    ensures Add(Deviations(vs, p), Scale(|vs| as real, p)) == Sum(vs)
  {
    if |vs| != 0 {
      var init := vs[..|vs| - 1];
      var last := vs[|vs| - 1];
      DeviationsClosedForm(init, p);
      ScaleSucc(|init| as real, p);
      var d0 := Deviations(init, p);
      assert Add(Deviations(vs, p), Scale(|vs| as real, p))
          == Add(Add(d0, Scale(|init| as real, p)), last);
    }
  }

  /** `n * n`, defined by the odd-number recurrence so that it stays linear for the solver. */
  function Square(n: nat): nat
  {
    if n == 0 then 0 else Square(n - 1) + 2 * n - 1
  }

  lemma {:induction false} SquareIsProduct(n: nat)
    ensures Square(n) as real == (n as real) * (n as real)
  {
    if n != 0 {
      SquareIsProduct(n - 1);
      var m := (n - 1) as real;
      assert n as real == m + 1.0;
      assert (m + 1.0) * (m + 1.0) == m * m + 2.0 * m + 1.0;
    }
  }

  lemma AddRegroup(s: Vec2, t: Vec2, p: Vec2, q: Vec2)
    ensures Add(Add(s, Sub(p, q)), Add(t, q)) == Add(Add(s, t), p)
  {
  }

  lemma ScaleByZero(k: real, a: Vec2)
    requires k == 0.0
    ensures Scale(k, a) == Zero
  {
  }

  /**
   The deviations from `p` summed and, when there are any, divided by their
   number: the mean of `vs` minus `p`, or zero for an empty sequence.
   */
  function MeanDeviation(vs: seq<Vec2>, p: Vec2): (m: Vec2)
    ensures |vs| == 0 ==> m == Zero
    ensures 0 < |vs| ==> Scale(|vs| as real, Add(m, p)) == Sum(vs)
  {
    var d := Deviations(vs, p);
    DeviationsClosedForm(vs, p);
    if 0 < |vs| then
      MeanOfDeviations(d, p, Sum(vs), |vs|);
      Scale(1.0 / |vs| as real, d)
    else
      ScaleByZero(|vs| as real, p);
      d
  }

  /** If `d + k·p = t` with `k > 0` then `k·(d/k + p) = t`. */
  lemma MeanOfDeviations(d: Vec2, p: Vec2, t: Vec2, k: nat)
    requires 0 < k && Add(d, Scale(k as real, p)) == t
    ensures Scale(k as real, Add(Scale(1.0 / k as real, d), p)) == t
  {
    var kr := k as real;
    assert kr * (1.0 / kr) == 1.0;
    assert Scale(kr, Scale(1.0 / kr, d)) == d;
  }

  lemma SumPair(a: Vec2, b: Vec2)
    ensures Sum([a, b]) == Add(a, b)
  {
    assert [a, b][..1] == [a];
    assert [a][..0] == [];
    assert Sum([a]) == Add(Zero, a);
  }

  lemma SquareNonNegative(r: real)
    ensures 0.0 <= r * r
  {
    if r < 0.0 {
      SquareAtMost(0.0, -r);
      assert (-r) * (-r) == r * r;
    }
  }

  lemma AddZeroLeft(a: Vec2)
    ensures Add(Zero, a) == a
  {
  }

  /** If `d + k·p` and `k·(c + p)` are the same vector, then `d` is `k·c`. */
  lemma ScaledOffset(d: Vec2, c: Vec2, p: Vec2, t: Vec2, k: real)
    requires Add(d, Scale(k, p)) == t && Scale(k, Add(c, p)) == t
    ensures d == Scale(k, c)
  {
    assert d.x + k * p.x == k * (c.x + p.x);
    assert d.y + k * p.y == k * (c.y + p.y);
  }

  lemma ScaleTwice(a: real, b: real, v: Vec2)
    ensures Scale(a, Scale(b, v)) == Scale(a * b, v)
  {
  }
}
