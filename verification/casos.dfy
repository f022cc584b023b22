/**
 The per-boid update of `modules/casos_simulacion.py` (`Boid.actualizar`).

 This variant differs from the one in `gordo.py`:
 - alignment and cohesion use inclusive radii, so a boid counts itself;
 - separation sums unit vectors;
 - a hard border pulls a boid straight back into a box;
 - lateral noise perpendicular to the heading is added;
 - the speed is clamped to a floor and a ceiling.

 The source accumulates the cohesion differences into the separation vector,
 so its cohesion term is always zero. `SteeringAsWritten` models that code.
 `IntendedSteering` is the evident intent, and `Update` is built on it.
 `Sweep`, the driver that runs the update over the flock, uses the update
 as written, `UpdateAsWritten`.
 */
module CasosSimulacion {
  import opened Vectors

  /** An axis-aligned box given as `((xmin, xmax), (ymin, ymax))`. */
  datatype Box = Box(xmin: real, xmax: real, ymin: real, ymax: real)

  /** The constants every boid is built with. */
  datatype Params = Params(
    vmin: real, vmax: real,
    wa: real, ws: real, wc: real, wb: real, wr: real,
    rhoa: real, rhos: real, rhoc: real,
    dt: real)

  /** Speed floor 5 and ceiling 15 m/s, weights, radii in meters, time step 1 ms. */
  const Defaults: Params := Params(5.0, 15.0, 0.1, 0.1, 0.1, 2.0, 0.05, 4.0, 1.5, 4.0, 0.001)

  /**
   A boid: its state, its constants, the border box it is pulled back into,
   and the world box (stored by the constructor, never read by the update).
   */
  datatype Boid = Boid(state: Agent, p: Params, border: Box, world: Box)

  /** `Boid.__init__`: the given state and boxes with the fixed constants. */
  function NewBoid(x: Vec2, v: Vec2, border: Box, world: Box): (b: Boid)
    ensures b.state == Agent(x, v) && b.border == border && b.world == world
    ensures b.p == Defaults
    ensures 0.0 < b.p.vmin < b.p.vmax
    ensures 0.0 < b.p.dt
  {
    Boid(Agent(x, v), Defaults, border, world)
  }

  // ---------------------------------------------------------------------------
  // Neighbourhoods

  /** `dist <= r` on squares: the alignment and cohesion test, which admits the boid itself. */
  predicate InReach(me: Vec2, other: Vec2, r: real)
  {
    0.0 <= r && DistSq(me, other) <= r * r
  }

  /** `0 < dist <= r` on squares: the separation test. */
  predicate Repels(me: Vec2, other: Vec2, r: real)
  {
    0.0 < DistSq(me, other) && InReach(me, other, r)
  }

  lemma InReachMeansDistance(sqrt: real -> real, me: Vec2, other: Vec2, r: real)
    requires IsSqrt(sqrt)
    ensures InReach(me, other, r) <==> Norm(sqrt, Sub(other, me)) <= r
    ensures Repels(me, other, r) <==> 0.0 < Norm(sqrt, Sub(me, other)) <= r
  {
    SubSymmetricNorm(me, other);
    SqrtAtMost(sqrt, DistSq(me, other), r);
    NormPositive(sqrt, Sub(me, other));
  }

  /** Distance is symmetric. */
  lemma SubSymmetricNorm(a: Vec2, b: Vec2)
    ensures NormSq(Sub(b, a)) == NormSq(Sub(a, b))
  {
    assert (b.x - a.x) * (b.x - a.x) == (a.x - b.x) * (a.x - b.x);
    assert (b.y - a.y) * (b.y - a.y) == (a.y - b.y) * (a.y - b.y);
  }

  /** The boids of `flock` within reach `r` of `me`, in flock order. */
  function Reach(me: Vec2, flock: seq<Agent>, r: real): (ns: seq<Agent>)
    ensures |ns| <= |flock|
  {
    if |flock| == 0 then []
    else
      var rest := Reach(me, flock[..|flock| - 1], r);
      if InReach(me, flock[|flock| - 1].pos, r) then rest + [flock[|flock| - 1]] else rest
  }

  /** A boid is within reach exactly when it is in the flock and passes the test. */
  lemma {:induction false} ReachMembers(me: Vec2, flock: seq<Agent>, r: real, a: Agent)
    ensures a in Reach(me, flock, r) <==> a in flock && InReach(me, a.pos, r)
  {
    if |flock| != 0 {
      var init := flock[..|flock| - 1];
      assert flock == init + [flock[|flock| - 1]];
      ReachMembers(me, init, r, a);
    }
  }

  /** A boid is within every non-negative reach of itself. */
  lemma ReachesItself(me: Vec2, r: real)
    requires 0.0 <= r
    ensures InReach(me, me, r)
  {
    DistSqSelf(me);
    SquareNonNegative(r);
  }

  /** A boid never repels itself. */
  lemma NeverRepelsItself(me: Vec2, r: real)
    ensures !Repels(me, me, r)
  {
    DistSqSelf(me);
  }

  lemma DistSqSelf(p: Vec2)
    ensures DistSq(p, p) == 0.0
  {
    assert Sub(p, p) == Zero;
  }

  /** For a non-negative radius a boid in the flock always reaches itself, so the count is positive. */
  lemma SelfInReach(me: Agent, flock: seq<Agent>, r: real)
    requires me in flock && 0.0 <= r
    ensures 0 < |Reach(me.pos, flock, r)|
  {
    ReachesItself(me.pos, r);
    ReachMembers(me.pos, flock, r, me);
  }

  /** The number of boids of `flock` that repel `me`. */
  function RepellingCount(me: Vec2, flock: seq<Agent>, r: real): (k: nat)
    ensures k <= |flock|
  {
    if |flock| == 0 then 0
    else RepellingCount(me, flock[..|flock| - 1], r) + (if Repels(me, flock[|flock| - 1].pos, r) then 1 else 0)
  }

  // ---------------------------------------------------------------------------
  // The three rules

  /**
   Alignment: the mean of `other.vel - me.vel` over the boids in reach,
   or zero when none is. The boid itself adds a zero difference but counts.
   */
  function Alignment(me: Agent, flock: seq<Agent>, r: real): (a: Vec2)
    ensures var ns := Reach(me.pos, flock, r);
      && (|ns| == 0 ==> a == Zero)
      && (0 < |ns| ==> Scale(|ns| as real, Add(a, me.vel)) == Sum(Velocities(ns)))
  {
    MeanDeviation(Velocities(Reach(me.pos, flock, r)), me.vel)
  }

  /**
   Separation: the sum of the unit vectors `(me - other) / dist` over the
   boids at distance `0 < dist <= r`, so its length is at most their number.
   */
  function Separation(sqrt: real -> real, me: Vec2, flock: seq<Agent>, r: real): (s: Vec2)
    requires IsSqrt(sqrt)
    ensures NormSq(s) <= Square(RepellingCount(me, flock, r)) as real
    ensures RepellingCount(me, flock, r) == 0 ==> s == Zero
  {
    if |flock| == 0 then Zero
    else
      var init := flock[..|flock| - 1];
      var other := flock[|flock| - 1];
      var s0 := Separation(sqrt, me, init, r);
      if Repels(me, other.pos, r) then
        var d := Sub(me, other.pos);
        var u := Scale(1.0 / Norm(sqrt, d), d);
        UnitHasNormOne(sqrt, d);
        AddUnitCount(s0, u, RepellingCount(me, init, r));
        Add(s0, u)
      else
        s0
  }

  /** Adding a unit vector to a vector of length at most `k` gives length at most `k + 1`. */
  lemma AddUnitCount(s: Vec2, u: Vec2, k: nat)
    requires NormSq(s) <= Square(k) as real && NormSq(u) == 1.0
    ensures NormSq(Add(s, u)) <= Square(k + 1) as real
  {
    SquareIsProduct(k);
    SquareIsProduct(k + 1);
    AddUnitBound(s, u, k as real);
    assert (k + 1) as real == k as real + 1.0;
  }

  /** The raw cohesion differences `other.pos - me.pos` over the boids in reach. */
  function CohesionDifferences(me: Agent, flock: seq<Agent>, r: real): (d: Vec2)
    ensures var ns := Reach(me.pos, flock, r);
      Add(d, Scale(|ns| as real, me.pos)) == Sum(Positions(ns))
  {
    var ns := Reach(me.pos, flock, r);
    DeviationsClosedForm(Positions(ns), me.pos);
    Deviations(Positions(ns), me.pos)
  }

  /** Cohesion as intended: neighbour centroid minus own position, zero when nobody is in reach. */
  function Cohesion(me: Agent, flock: seq<Agent>, r: real): (c: Vec2)
    ensures var ns := Reach(me.pos, flock, r);
      && (|ns| == 0 ==> c == Zero)
      && (0 < |ns| ==> Scale(|ns| as real, Add(c, me.pos)) == Sum(Positions(ns)))
  {
    MeanDeviation(Positions(Reach(me.pos, flock, r)), me.pos)
  }

  /** The raw cohesion differences are the intended cohesion times the number of boids in reach. */
  lemma DifferencesAreScaledCohesion(me: Agent, flock: seq<Agent>, r: real)
    ensures CohesionDifferences(me, flock, r) == Scale(|Reach(me.pos, flock, r)| as real, Cohesion(me, flock, r))
  {
    var ns := Reach(me.pos, flock, r);
    var k := |ns| as real;
    var c := Cohesion(me, flock, r);
    var t := Sum(Positions(ns));
    if |ns| == 0 {
      assert Positions(ns) == [];
      ScaleByZero(k, Add(c, me.pos));
    }
    ScaledOffset(CohesionDifferences(me, flock, r), c, me.pos, t, k);
  }

  /** The three steering vectors `ai`, `si`, `ci` of one update. */
  datatype Steering = Steering(ai: Vec2, si: Vec2, ci: Vec2)

  /**
   The steering vectors as the source computes them: the cohesion loop adds
   its differences into the separation accumulator, and the cohesion
   accumulator it then divides is never written, so `ci` is zero.
   */
  function SteeringAsWritten(sqrt: real -> real, me: Agent, flock: seq<Agent>, p: Params): (st: Steering)
    requires IsSqrt(sqrt)
    ensures var it := IntendedSteering(sqrt, me, flock, p);
      && st.ai == it.ai
      && st.ci == Zero
      && st.si == Add(it.si, Scale(|Reach(me.pos, flock, p.rhoc)| as real, it.ci))
  {
    DifferencesAreScaledCohesion(me, flock, p.rhoc);
    Steering(
      Alignment(me, flock, p.rhoa),
      Add(Separation(sqrt, me.pos, flock, p.rhos), CohesionDifferences(me, flock, p.rhoc)),
      Zero)
  }

  /** The steering vectors with cohesion kept in its own accumulator and averaged. */
  function IntendedSteering(sqrt: real -> real, me: Agent, flock: seq<Agent>, p: Params): (st: Steering)
    requires IsSqrt(sqrt)
    ensures NormSq(st.si) <= Square(RepellingCount(me.pos, flock, p.rhos)) as real
    ensures var ns := Reach(me.pos, flock, p.rhoc);
      0 < |ns| ==> Scale(|ns| as real, Add(st.ci, me.pos)) == Sum(Positions(ns))
  {
    Steering(
      Alignment(me, flock, p.rhoa),
      Separation(sqrt, me.pos, flock, p.rhos),
      Cohesion(me, flock, p.rhoc))
  }

  /**
   Take a flock of the boid itself and one other boid, farther away than the
   separation radius but within the cohesion radius; with the default radii
   1.5 and 4, the origin and `(2, 0)` will do. The code as written puts the
   whole offset to the other boid into `si` and leaves `ci` zero. The
   intended cohesion is half that offset, the centroid of the two minus the
   own position, and `si` is then zero.
   */
  lemma AliasedCohesionCounterexample(sqrt: real -> real, me: Agent, other: Agent, p: Params)
    requires IsSqrt(sqrt) && 0.0 <= p.rhos && 0.0 <= p.rhoc
    requires p.rhos * p.rhos < DistSq(me.pos, other.pos) <= p.rhoc * p.rhoc
    ensures SteeringAsWritten(sqrt, me, [me, other], p).si == Sub(other.pos, me.pos)
    ensures SteeringAsWritten(sqrt, me, [me, other], p).ci == Zero
    ensures IntendedSteering(sqrt, me, [me, other], p).si == Zero
    ensures IntendedSteering(sqrt, me, [me, other], p).ci == Scale(0.5, Sub(other.pos, me.pos))
  {
    PairCohesion(me, other, p);
    var flock := [me, other];
    var sep := Separation(sqrt, me.pos, flock, p.rhos);
    assert sep == Zero;
    var d := CohesionDifferences(me, flock, p.rhoc);
    assert d == Sub(other.pos, me.pos);
    AddZeroLeft(d);
    assert SteeringAsWritten(sqrt, me, flock, p).si == Add(sep, d);
  }

  /** The neighbourhood sums of the two-boid flock of `AliasedCohesionCounterexample`. */
  lemma PairCohesion(me: Agent, other: Agent, p: Params)
    requires 0.0 <= p.rhos && 0.0 <= p.rhoc
    requires p.rhos * p.rhos < DistSq(me.pos, other.pos) <= p.rhoc * p.rhoc
    ensures RepellingCount(me.pos, [me, other], p.rhos) == 0
    ensures CohesionDifferences(me, [me, other], p.rhoc) == Sub(other.pos, me.pos)
    ensures Cohesion(me, [me, other], p.rhoc) == Scale(0.5, Sub(other.pos, me.pos))
  {
    ReachesItself(me.pos, p.rhoc);
    NeverRepelsItself(me.pos, p.rhos);
    PairTests(me.pos, other.pos, p.rhos, p.rhoc);
    PairScan(me.pos, me, other, p.rhos);
    PairScan(me.pos, me, other, p.rhoc);
    PairCentroid(me, other, p.rhoc);
  }

  /** Which tests a boid between the two radii passes. */
  lemma PairTests(me: Vec2, other: Vec2, rs: real, rc: real)
    requires 0.0 <= rs && 0.0 <= rc
    requires rs * rs < DistSq(me, other) <= rc * rc
    ensures InReach(me, other, rc) && !Repels(me, other, rs)
  {
  }

  /** Cohesion over a neighbourhood made of the boid itself and one other boid. */
  lemma PairCentroid(me: Agent, other: Agent, r: real)
    requires Reach(me.pos, [me, other], r) == [me, other]
    ensures CohesionDifferences(me, [me, other], r) == Sub(other.pos, me.pos)
    ensures Cohesion(me, [me, other], r) == Scale(0.5, Sub(other.pos, me.pos))
  {
    var ns := [me, other];
    assert Positions(ns) == [me.pos, other.pos];
    SumPair(me.pos, other.pos);
    var d := CohesionDifferences(me, ns, r);
    assert Add(d, Scale(2.0, me.pos)) == Add(me.pos, other.pos);
    var c := Cohesion(me, ns, r);
    assert Scale(2.0, Add(c, me.pos)) == Add(me.pos, other.pos);
  }


  /** Scanning a two-boid flock. */
  lemma PairScan(me: Vec2, a: Agent, b: Agent, r: real)
    ensures Reach(me, [a, b], r)
         == (if InReach(me, a.pos, r) then [a] else []) + (if InReach(me, b.pos, r) then [b] else [])
    ensures RepellingCount(me, [a, b], r)
         == (if Repels(me, a.pos, r) then 1 else 0) + (if Repels(me, b.pos, r) then 1 else 0)
  {
    assert [a, b][..1] == [a];
    assert [a][..0] == [];
  }

  // ---------------------------------------------------------------------------
  // Border, noise and speed clamp

  /**
   One axis of the hard border: a coordinate below `lo` is pulled up by its
   distance to `lo`, one above `hi` down by its distance to `hi`, and one in
   between is left alone. The pull lands exactly on the edge it crossed.
   */
  function BorderPull(x: real, lo: real, hi: real): (f: real)
    ensures 0.0 < f <==> x < lo
    ensures f < 0.0 <==> lo <= x && hi < x
    ensures x < lo ==> x + f == lo
    ensures lo <= x && hi < x ==> x + f == hi
  {
    if x < lo then lo - x
    else if x > hi then hi - x
    else 0.0
  }

  function BorderForce(pos: Vec2, border: Box): Vec2
  {
    Vec2(BorderPull(pos.x, border.xmin, border.xmax), BorderPull(pos.y, border.ymin, border.ymax))
  }

  /** The pull moves every coordinate outside a non-empty interval back onto it, and leaves inside ones alone. */
  lemma BorderPullLandsInside(x: real, lo: real, hi: real)
    requires lo <= hi
    ensures lo <= x + BorderPull(x, lo, hi) <= hi
    ensures lo <= x <= hi ==> BorderPull(x, lo, hi) == 0.0
  {
  }

  /**
   Lateral noise: for a moving boid, the unit left normal `(-v.y, v.x) / |v|`
   scaled by the draw `2u - 1`; zero for a boid at rest. The cross product
   with the velocity fixes the side: the noise points left of the heading
   for a draw above one half and right of it below.
   */
  function LateralNoise(sqrt: real -> real, v: Vec2, u: real): (n: Vec2)
    requires IsSqrt(sqrt)
    ensures Dot(n, v) == 0.0
    ensures NormSq(v) == 0.0 ==> n == Zero
    ensures 0.0 < NormSq(v) ==> NormSq(n) == (2.0 * u - 1.0) * (2.0 * u - 1.0)
    ensures 0.0 <= u <= 1.0 ==> NormSq(n) <= 1.0
    ensures OnDrawSide(sqrt, v, u, n)
  {
    NormPositive(sqrt, v);
    if Norm(sqrt, v) > 0.0 then
      var normal := Vec2(-v.y, v.x);
      NoiseOfMovingBoid(sqrt, v, u);
      Scale(2.0 * u - 1.0, Scale(1.0 / Norm(sqrt, normal), normal))
    else
      Zero
  }

  /**
   For a moving boid the noise is the only vector that is perpendicular to
   the velocity and has the required cross product with it, so the
   contract of `LateralNoise` pins it down, side included.
   */
  lemma LateralNoiseUnique(sqrt: real -> real, v: Vec2, u: real, m: Vec2)
    requires IsSqrt(sqrt) && 0.0 < NormSq(v)
    requires Dot(m, v) == 0.0 && OnDrawSide(sqrt, v, u, m)
    ensures m == LateralNoise(sqrt, v, u)
  {
    var n := LateralNoise(sqrt, v, u);
    var d := Sub(m, n);
    PerpendicularAndParallel(v, d);
  }

  /** A vector both perpendicular and parallel to a non-zero vector is zero. */
  lemma PerpendicularAndParallel(v: Vec2, d: Vec2)
    requires 0.0 < NormSq(v) && Dot(d, v) == 0.0 && Cross(v, d) == 0.0
    ensures d == Zero
  {
    assert d.x * NormSq(v) == v.x * Dot(d, v) - v.y * Cross(v, d);
    assert d.y * NormSq(v) == v.y * Dot(d, v) + v.x * Cross(v, d);
  }

  /**
   `n` lies on the left of the heading `v` for a draw above one half and on
   its right below: its cross product with `v` is `(2u - 1)` times the speed.
   */
  predicate OnDrawSide(sqrt: real -> real, v: Vec2, u: real, n: Vec2)
    requires IsSqrt(sqrt)
  {
    Cross(v, n) == (2.0 * u - 1.0) * Norm(sqrt, v)
  }

  /** The noise of a moving boid: perpendicular, as long as the draw, and on the draw's side. */
  lemma NoiseOfMovingBoid(sqrt: real -> real, v: Vec2, u: real)
    requires IsSqrt(sqrt) && 0.0 < Norm(sqrt, v)
    ensures var normal := Vec2(-v.y, v.x);
      && 0.0 < Norm(sqrt, normal)
      && var n := Scale(2.0 * u - 1.0, Scale(1.0 / Norm(sqrt, normal), normal));
      && Dot(n, v) == 0.0
      && NormSq(n) == (2.0 * u - 1.0) * (2.0 * u - 1.0)
      && (0.0 <= u <= 1.0 ==> NormSq(n) <= 1.0)
      && OnDrawSide(sqrt, v, u, n)
  {
    var normal := Vec2(-v.y, v.x);
    var draw := 2.0 * u - 1.0;
    NormalHasSameNorm(v);
    assert Norm(sqrt, normal) == Norm(sqrt, v);
    RescaleHasNorm(sqrt, normal, draw);
    PerpendicularScaled(draw * (1.0 / Norm(sqrt, normal)), v);
    ScaleTwice(draw, 1.0 / Norm(sqrt, normal), normal);
    UnitIntervalSquare(draw);
    LeftNormalCross(sqrt, v, u);
  }

  /** The noise of a moving boid lies on the draw's side of its heading. */
  lemma LeftNormalCross(sqrt: real -> real, v: Vec2, u: real)
    requires IsSqrt(sqrt) && 0.0 < Norm(sqrt, Vec2(-v.y, v.x))
    ensures var normal := Vec2(-v.y, v.x);
      OnDrawSide(sqrt, v, u, Scale(2.0 * u - 1.0, Scale(1.0 / Norm(sqrt, normal), normal)))
  {
    var normal := Vec2(-v.y, v.x);
    var s := Norm(sqrt, v);
    var draw := 2.0 * u - 1.0;
    NormalHasSameNorm(v);
    assert Norm(sqrt, normal) == s;
    ScaleTwice(draw, 1.0 / s, normal);
    var k := draw * (1.0 / s);
    assert Cross(v, Scale(k, normal)) == k * NormSq(v);
    assert k * (s * s) == draw * s;
  }


  /** The left normal of `v` is as long as `v`. */
  lemma NormalHasSameNorm(v: Vec2)
    ensures NormSq(Vec2(-v.y, v.x)) == NormSq(v)
  {
  }

  /** Any multiple of the left normal of `v` is perpendicular to `v`. */
  lemma PerpendicularScaled(k: real, v: Vec2)
    ensures Dot(Scale(k, Vec2(-v.y, v.x)), v) == 0.0
  {
  }

  /**
   The speed clamp, decided on the pre-clamp speed `s`: at or above the
   ceiling the velocity is rescaled to the ceiling, and then, still judged
   by `s`, at or below the floor it is rescaled by `vmin / s`. A branch that
   fires on a velocity of speed zero divides by zero, which is `None`.
   */
  function ClampSpeed(sqrt: real -> real, v: Vec2, vmin: real, vmax: real): (w: Option<Vec2>)
    requires IsSqrt(sqrt)
    ensures w.None? <==> NormSq(v) == 0.0 && (vmax <= 0.0 || 0.0 <= vmin)
    ensures w.Some? && 0.0 <= vmin < vmax ==>
      && vmin * vmin <= NormSq(w.value) <= vmax * vmax
      && Cross(w.value, v) == 0.0
      && 0.0 < Dot(w.value, v)
    ensures 0.0 <= vmin < vmax && vmax * vmax <= NormSq(v) ==> w.Some? && NormSq(w.value) == vmax * vmax
    ensures 0.0 <= vmin < vmax && 0.0 < NormSq(v) <= vmin * vmin ==> w.Some? && NormSq(w.value) == vmin * vmin
    ensures 0.0 <= vmin < vmax && vmin * vmin < NormSq(v) < vmax * vmax ==> w == Some(v)
  {
    var s := Norm(sqrt, v);
    NormPositive(sqrt, v);
    SqrtBelow(sqrt, NormSq(v), vmax);
    SqrtAtMost(sqrt, NormSq(v), vmin);
    SqrtBelow(sqrt, NormSq(v), vmin);
    if (s >= vmax || s <= vmin) && s == 0.0 then
      None
    else
      var v2 := if s >= vmax then Scale(vmax, Scale(1.0 / s, v)) else v;
      var v3 := if s <= vmin then Scale(vmin, Scale(1.0 / s, v2)) else v2;
      ClampFacts(sqrt, v, vmin, vmax, v2, v3);
      Some(v3)
  }

  lemma ClampFacts(sqrt: real -> real, v: Vec2, vmin: real, vmax: real, v2: Vec2, v3: Vec2)
    requires IsSqrt(sqrt)
    requires var s := Norm(sqrt, v);
      && !((s >= vmax || s <= vmin) && s == 0.0)
      && v2 == (if s >= vmax then Scale(vmax, Scale(1.0 / s, v)) else v)
      && v3 == (if s <= vmin then Scale(vmin, Scale(1.0 / s, v2)) else v2)
    ensures 0.0 <= vmin < vmax ==>
      && vmin * vmin <= NormSq(v3) <= vmax * vmax
      && Cross(v3, v) == 0.0
      && 0.0 < Dot(v3, v)
    ensures 0.0 <= vmin < vmax && vmax * vmax <= NormSq(v) ==> NormSq(v3) == vmax * vmax
    ensures 0.0 <= vmin < vmax && 0.0 < NormSq(v) <= vmin * vmin ==> NormSq(v3) == vmin * vmin
    ensures 0.0 <= vmin < vmax && vmin * vmin < NormSq(v) < vmax * vmax ==> v3 == v
  {
    var s := Norm(sqrt, v);
    NormPositive(sqrt, v);
    SqrtBelow(sqrt, NormSq(v), vmax);
    SqrtAtMost(sqrt, NormSq(v), vmin);
    SqrtBelow(sqrt, NormSq(v), vmin);
    if 0.0 <= vmin < vmax {
      if s >= vmax {
        RescaleHasNorm(sqrt, v, vmax);
        RescaleKeepsDirection(sqrt, v, vmax);
        SquareAtMost(vmin, vmax);
      } else if s <= vmin {
        RescaleHasNorm(sqrt, v, vmin);
        RescaleKeepsDirection(sqrt, v, vmin);
        SquareAtMost(vmin, vmax);
      } else {
        SquareAtMost(vmin, s);
        SquareAtMost(s, vmax);
        assert Cross(v, v) == 0.0;
        NormPositive(sqrt, v);
      }
    }
  }

  // ---------------------------------------------------------------------------
  // The update

  /** `v + wa·ai + ws·si + wc·ci + wb·border + wr·noise`, before the clamp. */
  function PreClampVelocity(me: Boid, st: Steering, noise: Vec2): Vec2
  {
    var p := me.p;
    Add(Add(Add(Add(Add(me.state.vel, Scale(p.wa, st.ai)), Scale(p.ws, st.si)), Scale(p.wc, st.ci)),
            Scale(p.wb, BorderForce(me.state.pos, me.border))),
        Scale(p.wr, noise))
  }

  /** A boid whose speed floor is below its ceiling moves at a speed between the two. */
  predicate WithinSpeedBounds(b: Boid)
  {
    0.0 <= b.p.vmin < b.p.vmax ==> b.p.vmin * b.p.vmin <= NormSq(b.state.vel) <= b.p.vmax * b.p.vmax
  }

  /**
   Integrate the steering into the velocity, clamp the speed, and advance
   the position by `dt` times the clamped velocity. Nothing but the state
   changes; `None` when the clamp divides by a zero speed.
   */
  function Advance(sqrt: real -> real, me: Boid, st: Steering, u: real): (next: Option<Boid>)
    requires IsSqrt(sqrt)
    ensures var v := PreClampVelocity(me, st, LateralNoise(sqrt, me.state.vel, u));
      next.None? <==> NormSq(v) == 0.0 && (me.p.vmax <= 0.0 || 0.0 <= me.p.vmin)
    ensures next.Some? ==>
      && next.value.p == me.p && next.value.border == me.border && next.value.world == me.world
      && next.value.state.pos == Add(me.state.pos, Scale(me.p.dt, next.value.state.vel))
    ensures next.Some? ==> WithinSpeedBounds(next.value)
  {
    var noise := LateralNoise(sqrt, me.state.vel, u);
    var v := PreClampVelocity(me, st, noise);
    match ClampSpeed(sqrt, v, me.p.vmin, me.p.vmax)
    case None => None
    case Some(w) =>
      var b := me.(state := Agent(Add(me.state.pos, Scale(me.p.dt, w)), w));
      ClampedWithinBounds(sqrt, b, v);
      Some(b)
  }

  /** The velocity `Advance` gives a boid is the clamp of the velocity before the clamp. */
  lemma AdvanceClamps(sqrt: real -> real, me: Boid, st: Steering, u: real)
    requires IsSqrt(sqrt)
    ensures var next := Advance(sqrt, me, st, u);
      var v := PreClampVelocity(me, st, LateralNoise(sqrt, me.state.vel, u));
      next.Some? ==> ClampSpeed(sqrt, v, me.p.vmin, me.p.vmax) == Some(next.value.state.vel)
  {
  }

  /** A boid whose velocity came out of the clamp with its own floor and ceiling is within its speed bounds. */
  lemma ClampedWithinBounds(sqrt: real -> real, b: Boid, v: Vec2)
    requires IsSqrt(sqrt) && ClampSpeed(sqrt, v, b.p.vmin, b.p.vmax) == Some(b.state.vel)
    ensures WithinSpeedBounds(b)
  {
  }

  /** `Boid.actualizar` as written, with the aliased cohesion accumulator. */
  function UpdateAsWritten(sqrt: real -> real, me: Boid, flock: seq<Agent>, u: real): (next: Option<Boid>)
    requires IsSqrt(sqrt)
    ensures next.Some? ==> next.value.p == me.p && next.value.border == me.border && next.value.world == me.world
    ensures next.Some? ==> WithinSpeedBounds(next.value)
  {
    Advance(sqrt, me, SteeringAsWritten(sqrt, me.state, flock, me.p), u)
  }

  /**
   The update as written fails exactly when a clamp branch divides by a zero
   speed; otherwise its new velocity is the clamp of the velocity built from
   the as-written steering, and the position advances by `dt` times it.
   */
  lemma UpdateAsWrittenClamps(sqrt: real -> real, me: Boid, flock: seq<Agent>, u: real)
    requires IsSqrt(sqrt)
    ensures var next := UpdateAsWritten(sqrt, me, flock, u);
      var v := PreClampVelocity(me, SteeringAsWritten(sqrt, me.state, flock, me.p), LateralNoise(sqrt, me.state.vel, u));
      && (next.None? <==> NormSq(v) == 0.0 && (me.p.vmax <= 0.0 || 0.0 <= me.p.vmin))
      && (next.Some? ==> ClampSpeed(sqrt, v, me.p.vmin, me.p.vmax) == Some(next.value.state.vel))
      && (next.Some? ==> next.value.state.pos == Add(me.state.pos, Scale(me.p.dt, next.value.state.vel)))
  {
    AdvanceClamps(sqrt, me, SteeringAsWritten(sqrt, me.state, flock, me.p), u);
  }

  /** `Boid.actualizar` with cohesion averaged in its own accumulator. */
  function Update(sqrt: real -> real, me: Boid, flock: seq<Agent>, u: real): (next: Option<Boid>)
    requires IsSqrt(sqrt)
    ensures next.Some? ==> next.value.p == me.p && next.value.border == me.border && next.value.world == me.world
    ensures next.Some? ==> WithinSpeedBounds(next.value)
    ensures var v := PreClampVelocity(me, IntendedSteering(sqrt, me.state, flock, me.p), LateralNoise(sqrt, me.state.vel, u));
      && (next.None? <==> NormSq(v) == 0.0 && (me.p.vmax <= 0.0 || 0.0 <= me.p.vmin))
      && (next.Some? ==> ClampSpeed(sqrt, v, me.p.vmin, me.p.vmax) == Some(next.value.state.vel))
      && (next.Some? ==> next.value.state.pos == Add(me.state.pos, Scale(me.p.dt, next.value.state.vel)))
  {
    AdvanceClamps(sqrt, me, IntendedSteering(sqrt, me.state, flock, me.p), u);
    Advance(sqrt, me, IntendedSteering(sqrt, me.state, flock, me.p), u)
  }

  /**
   With the constants every boid is built with, whatever the steering, the
   update fails only when the velocity before the clamp has speed zero, and
   otherwise lands at a speed between 5 and 15.
   */
  lemma DefaultSpeedBounds(sqrt: real -> real, me: Boid, st: Steering, u: real)
    requires IsSqrt(sqrt) && me.p == Defaults
    ensures var v := PreClampVelocity(me, st, LateralNoise(sqrt, me.state.vel, u));
      Advance(sqrt, me, st, u).None? <==> NormSq(v) == 0.0
    ensures var next := Advance(sqrt, me, st, u);
      next.Some? ==> 25.0 <= NormSq(next.value.state.vel) <= 225.0
  {
    var next := Advance(sqrt, me, st, u);
    assert me.p.vmin == 5.0 && me.p.vmax == 15.0;
    if next.Some? {
      assert me.p.vmin * me.p.vmin <= NormSq(next.value.state.vel) <= me.p.vmax * me.p.vmax;
    }
  }

  /**
   A boid with the built-in speed floor 5 and ceiling 15, updated as the
   source does: the update fails only when the velocity before the clamp
   has speed zero, and otherwise leaves the boid at a speed between 5 and 15.
   */
  lemma AsWrittenSpeedBounds(sqrt: real -> real, me: Boid, flock: seq<Agent>, u: real)
    requires IsSqrt(sqrt) && me.p.vmin == 5.0 && me.p.vmax == 15.0
    ensures var w := PreClampVelocity(me, SteeringAsWritten(sqrt, me.state, flock, me.p), LateralNoise(sqrt, me.state.vel, u));
      UpdateAsWritten(sqrt, me, flock, u).None? <==> NormSq(w) == 0.0
    ensures var next := UpdateAsWritten(sqrt, me, flock, u);
      next.Some? ==> 25.0 <= NormSq(next.value.state.vel) <= 225.0
  {
  }

  /** Every boid the constructor builds has the speed floor and ceiling of `AsWrittenSpeedBounds`. */
  lemma NewBoidSpeedBounds(sqrt: real -> real, x: Vec2, v: Vec2, border: Box, world: Box, flock: seq<Agent>, u: real)
    requires IsSqrt(sqrt)
    ensures var next := UpdateAsWritten(sqrt, NewBoid(x, v, border, world), flock, u);
      next.Some? ==> 25.0 <= NormSq(next.value.state.vel) <= 225.0
  {
    AsWrittenSpeedBounds(sqrt, NewBoid(x, v, border, world), flock, u);
  }

  // ---------------------------------------------------------------------------
  // The driver sweep

  /** The states of a sequence of boids, which is the flock every update reads. */
  function States(boids: seq<Boid>): (fs: seq<Agent>)
    ensures |fs| == |boids|
    ensures forall i :: 0 <= i < |boids| ==> fs[i] == boids[i].state
  {
    seq(|boids|, i requires 0 <= i < |boids| => boids[i].state)
  }

  /** Every index of `order` names a boid. */
  predicate ValidOrder(order: seq<nat>, n: nat)
  {
    forall k :: 0 <= k < |order| ==> order[k] < n
  }

  /**
   What a sweep promises about its result `after`: the same number of boids,
   no boid's constants or boxes changed, the boids the order never names
   untouched, and every boid it names within its own speed bounds.
   */
  predicate Swept(before: seq<Boid>, order: seq<nat>, after: seq<Boid>)
  {
    && |after| == |before|
    && (forall i :: 0 <= i < |before| ==>
          after[i].p == before[i].p && after[i].border == before[i].border && after[i].world == before[i].world)
    && (forall i :: 0 <= i < |before| && i !in order ==> after[i] == before[i])
    && (forall i :: 0 <= i < |before| && i in order ==> WithinSpeedBounds(after[i]))
  }

  /**
   One sweep of the driver: the boids are updated one at a time by the
   update as written, in place, in the given index order, each reading the flock as the earlier updates
   left it, with `draws[k]` as the noise draw of the `k`-th update. `None`
   when some update divides by a zero speed.
   */
  function Sweep(sqrt: real -> real, boids: seq<Boid>, order: seq<nat>, draws: seq<real>): (r: Option<seq<Boid>>)
    requires IsSqrt(sqrt) && |draws| == |order| && ValidOrder(order, |boids|)
    ensures r.Some? ==> Swept(boids, order, r.value)
    decreases |order|
  {
    if |order| == 0 then Some(boids)
    else
      var i := order[0];
      match Visit(sqrt, boids, i, draws[0])
      case None => None
      case Some(b) =>
        ValidOrderTail(order, |boids|);
        var r := Sweep(sqrt, boids[i := b], order[1..], draws[1..]);
        if r.Some? then SweptStep(boids, order, b, r.value); r else r
  }

  /** Boid `i` updated as written against the flock as it stands. */
  function Visit(sqrt: real -> real, boids: seq<Boid>, i: nat, u: real): (next: Option<Boid>)
    requires IsSqrt(sqrt) && i < |boids|
    ensures next.Some? ==> Kept(boids[i], next.value)
  {
    UpdateAsWritten(sqrt, boids[i], States(boids), u)
  }

  /** `b` has the constants and boxes of `prev` and is within its speed bounds. */
  predicate Kept(prev: Boid, b: Boid)
  {
    b.p == prev.p && b.border == prev.border && b.world == prev.world && WithinSpeedBounds(b)
  }

  /** Dropping the first index of a valid order leaves a valid order. */
  lemma ValidOrderTail(order: seq<nat>, n: nat)
    requires 0 < |order| && ValidOrder(order, n)
    ensures ValidOrder(order[1..], n) && order[0] < n
  {
    forall k | 0 <= k < |order| - 1
      ensures order[1..][k] < n
    {
      assert order[1..][k] == order[k + 1];
    }
  }

  /** Updating the first boid of the order, then sweeping the rest of the order, is a sweep of the whole order. */
  lemma SweptStep(boids: seq<Boid>, order: seq<nat>, b: Boid, after: seq<Boid>)
    requires 0 < |order| && order[0] < |boids|
    requires Kept(boids[order[0]], b)
    requires Swept(boids[order[0] := b], order[1..], after)
    ensures Swept(boids, order, after)
  {
    var i := order[0];
    var next := boids[i := b];
    forall j | 0 <= j < |boids| && j in order
      ensures WithinSpeedBounds(after[j])
    {
      if j !in order[1..] {
        assert j == i;
        assert after[j] == next[j];
      }
    }
    forall j | 0 <= j < |boids| && j !in order
      ensures after[j] == boids[j]
    {
      assert j !in order[1..];
    }
  }
}
