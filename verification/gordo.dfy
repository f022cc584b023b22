/**
 The flocking rules and the synchronous tick of `gordo.py`.

 Each boid steers by three neighbour rules (alignment, separation, cohesion)
 that only see boids strictly inside a radius and not co-located with it.
 A margin spring pushes it back from the walls of the world. Its speed is
 capped, and it then moves with the new velocity. One tick computes every
 boid's force from the unmodified flock first, and only then updates every
 boid.
 */
module Gordo {
  import opened Vectors

  /** Distance from a wall at which the boundary spring starts pushing (`margen`). */
  const Margin: real := 20.0

  /** Spring constant of the boundary rule (`fuerza_magnitud`). */
  const Stiffness: real := 0.5

  /** Default speed ceiling of the state update (`velocidad_max`). */
  const MaxSpeed: real := 10.0

  /** Extent of the world; the walls are at 0 and at `width` / `height`. */
  datatype World = World(width: real, height: real)

  /** Rule weights, rule radii and the time step of one tick. */
  datatype Params = Params(wa: real, ws: real, wc: real, ra: real, rs: real, rc: real, dt: real)

  /** The values the simulation script runs with. */
  const Simulation: Params := Params(0.1, 0.1, 0.1, 10.0, 1.0, 10.0, 0.01)

  const Arena: World := World(100.0, 100.0)

  // ---------------------------------------------------------------------------
  // Neighbourhoods

  /** `other` is a neighbour of `me` for radius `r` when `0 < dist < r`, stated on squares. */
  predicate IsNeighbour(me: Vec2, other: Vec2, r: real)
  {
    0.0 < DistSq(me, other) && 0.0 < r && DistSq(me, other) < r * r
  }

  /** The squared test is exactly the source's `0 < dist < r` on the Euclidean distance. */
  lemma NeighbourMeansDistance(sqrt: real -> real, me: Vec2, other: Vec2, r: real)
    requires IsSqrt(sqrt)
    ensures IsNeighbour(me, other, r) <==> 0.0 < Norm(sqrt, Sub(me, other)) < r
  {
    var d := DistSq(me, other);
    SqrtBelow(sqrt, d, r);
    if 0.0 < d {
      SqrtPositive(sqrt, d);
    } else {
      SqrtZero(sqrt);
    }
  }

  /** A boid never counts itself, nor a boid at its own position, nor one exactly at the radius. */
  lemma NeighbourExclusions(sqrt: real -> real, me: Vec2, other: Vec2, r: real)
    requires IsSqrt(sqrt)
    ensures other == me ==> !IsNeighbour(me, other, r)
    ensures Norm(sqrt, Sub(me, other)) == r ==> !IsNeighbour(me, other, r)
  {
    NeighbourMeansDistance(sqrt, me, other, r);
  }

  /** The boids of `flock` that are neighbours of position `me`, in flock order. */
  function Neighbours(me: Vec2, flock: seq<Agent>, r: real): (ns: seq<Agent>)
    ensures |ns| <= |flock|
  {
    if |flock| == 0 then []
    else
      var last := flock[|flock| - 1];
      var rest := Neighbours(me, flock[..|flock| - 1], r);
      assert flock == flock[..|flock| - 1] + [last];
      if IsNeighbour(me, last.pos, r) then rest + [last] else rest
  }

  /** A boid is in the neighbourhood exactly when it is in the flock and passes the neighbour test. */
  lemma {:induction false} NeighboursMembers(me: Vec2, flock: seq<Agent>, r: real, a: Agent)
    ensures a in Neighbours(me, flock, r) <==> a in flock && IsNeighbour(me, a.pos, r)
  {
    if |flock| != 0 {
      var init := flock[..|flock| - 1];
      assert flock == init + [flock[|flock| - 1]];
      NeighboursMembers(me, init, r, a);
    }
  }

  /** Extending the scanned prefix by one boid extends the neighbourhood by at most that boid. */
  lemma NeighboursSnoc(me: Vec2, flock: seq<Agent>, i: nat, r: real)
    requires i < |flock|
    ensures Neighbours(me, flock[..i + 1], r)
         == Neighbours(me, flock[..i], r) + (if IsNeighbour(me, flock[i].pos, r) then [flock[i]] else [])
  {
    assert flock[..i + 1][..i] == flock[..i];
  }

  // ---------------------------------------------------------------------------
  // The three rules, as reference definitions

  /** Alignment: mean neighbour velocity minus own velocity; zero without neighbours. */
  function Alignment(me: Agent, flock: seq<Agent>, r: real): (a: Vec2)
    ensures var ns := Neighbours(me.pos, flock, r);
      && (|ns| == 0 ==> a == Zero)
      && (0 < |ns| ==> Scale(|ns| as real, Add(a, me.vel)) == Sum(Velocities(ns)))
  {
    var ns := Neighbours(me.pos, flock, r);
    if |ns| == 0 then Zero
    else
      var m := Mean(Velocities(ns));
      assert Add(Sub(m, me.vel), me.vel) == m;
      Sub(m, me.vel)
  }

  /** The sum of `p - a.pos` over `ns`, accumulated left to right. */
  function SeparationSum(p: Vec2, ns: seq<Agent>): Vec2
  {
    if |ns| == 0 then Zero
    else Add(SeparationSum(p, ns[..|ns| - 1]), Sub(p, ns[|ns| - 1].pos))
  }

  /** Summing `p - a.pos` is the same as `|ns|` copies of `p` minus the sum of positions. */
  lemma {:induction false} SeparationSumClosedForm(p: Vec2, ns: seq<Agent>)
    ensures Add(SeparationSum(p, ns), Sum(Positions(ns))) == Scale(|ns| as real, p)
  {
    if |ns| != 0 {
      var last := ns[|ns| - 1];
      var init := ns[..|ns| - 1];
      assert ns == init + [last];
      SeparationSumClosedForm(p, init);
      PositionsSnoc(init, last);
      SumSnoc(Positions(init), last.pos);
      var k := |init| as real;
      ScaleSucc(k, p);
      assert |ns| as real == k + 1.0;
      var s0 := SeparationSum(p, init);
      var t0 := Sum(Positions(init));
      assert Sum(Positions(ns)) == Add(t0, last.pos);
      assert SeparationSum(p, ns) == Add(s0, Sub(p, last.pos));
      AddRegroup(s0, t0, p, last.pos);
      assert Add(SeparationSum(p, ns), Sum(Positions(ns))) == Add(Add(s0, t0), p);
      assert Add(Add(s0, t0), p) == Add(Scale(k, p), p);
      assert Scale(|ns| as real, p) == Scale(k + 1.0, p);
    } else {
      assert Positions(ns) == [];
      ScaleByZero(|ns| as real, p);
    }
  }

  /**
   Separation: the raw sum of `me.pos - other.pos` over neighbours, which is
   the neighbour count times `me.pos` minus the sum of neighbour positions.
   */
  function Separation(me: Agent, flock: seq<Agent>, r: real): (s: Vec2)
    ensures var ns := Neighbours(me.pos, flock, r);
      && Add(s, Sum(Positions(ns))) == Scale(|ns| as real, me.pos)
      && (|ns| == 0 ==> s == Zero)
  {
    SeparationSumClosedForm(me.pos, Neighbours(me.pos, flock, r));
    SeparationSum(me.pos, Neighbours(me.pos, flock, r))
  }

  /** Cohesion: neighbour centroid minus own position; zero without neighbours. */
  function Cohesion(me: Agent, flock: seq<Agent>, r: real): (c: Vec2)
    ensures var ns := Neighbours(me.pos, flock, r);
      && (|ns| == 0 ==> c == Zero)
      && (0 < |ns| ==> Scale(|ns| as real, Add(c, me.pos)) == Sum(Positions(ns)))
  {
    var ns := Neighbours(me.pos, flock, r);
    if |ns| == 0 then Zero
    else
      var m := Mean(Positions(ns));
      assert Add(Sub(m, me.pos), me.pos) == m;
      Sub(m, me.pos)
  }

  /** With one radius for both rules, separation is minus the neighbour count times cohesion. */
  lemma SeparationOpposesCohesion(me: Agent, flock: seq<Agent>, r: real)
    ensures Scale(-(|Neighbours(me.pos, flock, r)| as real), Cohesion(me, flock, r)) == Separation(me, flock, r)
  {
    var ns := Neighbours(me.pos, flock, r);
    var k := |ns| as real;
    var c := Cohesion(me, flock, r);
    var s := Separation(me, flock, r);
    var total := Sum(Positions(ns));
    if |ns| == 0 {
      assert c == Zero && s == Zero;
    } else {
      assert Scale(k, Add(c, me.pos)) == total;
      assert Add(s, total) == Scale(k, me.pos);
      ScaleNegate(k, c, me.pos, s, total);
    }
  }

  /** The weighted sum of the three rules (`calcular_fuerzas`). */
  function TotalForce(me: Agent, flock: seq<Agent>, p: Params): Vec2
  {
    Add(Add(Scale(p.wa, Alignment(me, flock, p.ra)),
            Scale(p.ws, Separation(me, flock, p.rs))),
        Scale(p.wc, Cohesion(me, flock, p.rc)))
  }

  // ---------------------------------------------------------------------------
  // The three rules as the source computes them: one pass over the flock

  /** One more boid scanned: the neighbour velocity sum and count grow by that boid iff it is a neighbour. */
  lemma VelocityScanStep(me: Vec2, flock: seq<Agent>, i: nat, r: real)
    requires i < |flock|
    ensures var before := Neighbours(me, flock[..i], r);
      var after := Neighbours(me, flock[..i + 1], r);
      if IsNeighbour(me, flock[i].pos, r)
      then Sum(Velocities(after)) == Add(Sum(Velocities(before)), flock[i].vel) && |after| == |before| + 1
      else Sum(Velocities(after)) == Sum(Velocities(before)) && |after| == |before|
  {
    NeighboursSnoc(me, flock, i, r);
    var before := Neighbours(me, flock[..i], r);
    if IsNeighbour(me, flock[i].pos, r) {
      VelocitiesSnoc(before, flock[i]);
      SumSnoc(Velocities(before), flock[i].vel);
    } else {
      assert before + [] == before;
    }
  }

  /** One more boid scanned: the neighbour position sum and count grow by that boid iff it is a neighbour. */
  lemma PositionScanStep(me: Vec2, flock: seq<Agent>, i: nat, r: real)
    requires i < |flock|
    ensures var before := Neighbours(me, flock[..i], r);
      var after := Neighbours(me, flock[..i + 1], r);
      if IsNeighbour(me, flock[i].pos, r)
      then Sum(Positions(after)) == Add(Sum(Positions(before)), flock[i].pos) && |after| == |before| + 1
      else Sum(Positions(after)) == Sum(Positions(before)) && |after| == |before|
  {
    NeighboursSnoc(me, flock, i, r);
    var before := Neighbours(me, flock[..i], r);
    if IsNeighbour(me, flock[i].pos, r) {
      PositionsSnoc(before, flock[i]);
      SumSnoc(Positions(before), flock[i].pos);
    } else {
      assert before + [] == before;
    }
  }

  /** One more boid scanned: the separation sum grows by `me - pos` iff that boid is a neighbour. */
  lemma SeparationScanStep(me: Vec2, flock: seq<Agent>, i: nat, r: real)
    requires i < |flock|
    ensures var before := Neighbours(me, flock[..i], r);
      var after := Neighbours(me, flock[..i + 1], r);
      if IsNeighbour(me, flock[i].pos, r)
      then SeparationSum(me, after) == Add(SeparationSum(me, before), Sub(me, flock[i].pos))
      else SeparationSum(me, after) == SeparationSum(me, before)
  {
    NeighboursSnoc(me, flock, i, r);
    var before := Neighbours(me, flock[..i], r);
    if IsNeighbour(me, flock[i].pos, r) {
      assert (before + [flock[i]])[..|before|] == before;
    } else {
      assert before + [] == before;
    }
  }

  /** The source's neighbour test `0 < dist < r`, on the Euclidean distance. */
  function WithinRadius(sqrt: real -> real, me: Vec2, other: Vec2, r: real): (b: bool)
    requires IsSqrt(sqrt)
    ensures b == IsNeighbour(me, other, r)
  {
    NeighbourMeansDistance(sqrt, me, other, r);
    var dist := Norm(sqrt, Sub(me, other));
    0.0 < dist < r
  }

  method ComputeAlignment(sqrt: real -> real, me: Agent, flock: seq<Agent>, r: real) returns (a: Vec2)
    requires IsSqrt(sqrt)
    ensures a == Alignment(me, flock, r)
  {
    var total := Zero;
    var count := 0;
    for i := 0 to |flock|
      invariant total == Sum(Velocities(Neighbours(me.pos, flock[..i], r)))
      invariant count == |Neighbours(me.pos, flock[..i], r)|
    {
      VelocityScanStep(me.pos, flock, i, r);
      if WithinRadius(sqrt, me.pos, flock[i].pos, r) {
        total := Add(total, flock[i].vel);
        count := count + 1;
      }
    }
    assert flock[..|flock|] == flock;
    if count > 0 {
      a := Sub(Scale(1.0 / count as real, total), me.vel);
    } else {
      a := Zero;
    }
  }

  method ComputeSeparation(sqrt: real -> real, me: Agent, flock: seq<Agent>, r: real) returns (s: Vec2)
    requires IsSqrt(sqrt)
    ensures s == Separation(me, flock, r)
  {
    s := Zero;
    assert Neighbours(me.pos, flock[..0], r) == [];
    for i := 0 to |flock|
      invariant s == SeparationSum(me.pos, Neighbours(me.pos, flock[..i], r))
    {
      SeparationScanStep(me.pos, flock, i, r);
      if WithinRadius(sqrt, me.pos, flock[i].pos, r) {
        s := Add(s, Sub(me.pos, flock[i].pos));
      }
    }
    assert flock[..|flock|] == flock;
  }

  method ComputeCohesion(sqrt: real -> real, me: Agent, flock: seq<Agent>, r: real) returns (c: Vec2)
    requires IsSqrt(sqrt)
    ensures c == Cohesion(me, flock, r)
  {
    var centre := Zero;
    var count := 0;
    for i := 0 to |flock|
      invariant centre == Sum(Positions(Neighbours(me.pos, flock[..i], r)))
      invariant count == |Neighbours(me.pos, flock[..i], r)|
    {
      PositionScanStep(me.pos, flock, i, r);
      if WithinRadius(sqrt, me.pos, flock[i].pos, r) {
        centre := Add(centre, flock[i].pos);
        count := count + 1;
      }
    }
    assert flock[..|flock|] == flock;
    if count > 0 {
      c := Sub(Scale(1.0 / count as real, centre), me.pos);
    } else {
      c := Zero;
    }
  }

  /** `calcular_fuerzas`: the weighted combination of the three rules. */
  method CalculateForces(sqrt: real -> real, me: Agent, flock: seq<Agent>, p: Params) returns (f: Vec2)
    requires IsSqrt(sqrt)
    ensures f == Add(Add(Scale(p.wa, Alignment(me, flock, p.ra)),
                         Scale(p.ws, Separation(me, flock, p.rs))),
                     Scale(p.wc, Cohesion(me, flock, p.rc)))
  {
    var a := ComputeAlignment(sqrt, me, flock, p.ra);
    var s := ComputeSeparation(sqrt, me, flock, p.rs);
    var c := ComputeCohesion(sqrt, me, flock, p.rc);
    f := Add(Add(Scale(p.wa, a), Scale(p.ws, s)), Scale(p.wc, c));
  }

  // ---------------------------------------------------------------------------
  // State update

  /**
   One axis of the boundary spring: it pushes a boid that is closer than
   `Margin` to the low wall up, one closer than `Margin` to the high wall at
   `extent` down, and leaves it alone in between. The spring's rest point is
   the margin line it has crossed.
   */
  function MarginPush(x: real, extent: real): (f: real)
    ensures 0.0 < f <==> x < Margin
    ensures f < 0.0 <==> Margin <= x && extent - Margin < x
    ensures x < Margin ==> x + f / Stiffness == Margin
    ensures Margin <= x && extent - Margin < x ==> x + f / Stiffness == extent - Margin
  {
    if x < Margin then (Margin - x) * Stiffness
    else if x > extent - Margin then (extent - Margin - x) * Stiffness
    else 0.0
  }

  function BoundaryForce(pos: Vec2, world: World): Vec2
  {
    Vec2(MarginPush(pos.x, world.width), MarginPush(pos.y, world.height))
  }

  /** Inside the band `[Margin, extent - Margin]` on both axes the boundary force vanishes. */
  lemma BoundaryForceInsideBand(pos: Vec2, world: World)
    requires Margin <= pos.x <= world.width - Margin
    requires Margin <= pos.y <= world.height - Margin
    ensures BoundaryForce(pos, world) == Zero
  {
  }

  /**
   The speed ceiling: a velocity faster than `vmax` is rescaled to speed
   `vmax` along the same direction; any other velocity is kept.
   */
  function LimitSpeed(sqrt: real -> real, v: Vec2, vmax: real): (w: Vec2)
    requires IsSqrt(sqrt) && 0.0 <= vmax
    ensures NormSq(w) <= vmax * vmax
    ensures NormSq(v) <= vmax * vmax ==> w == v
    ensures vmax * vmax < NormSq(v) ==>
      && NormSq(w) == vmax * vmax
      && Cross(w, v) == 0.0
      && (0.0 < vmax ==> 0.0 < Dot(w, v))
  {
    var n := Norm(sqrt, v);
    SqrtAtMost(sqrt, NormSq(v), vmax);
    if n > vmax then
      RescaleHasNorm(sqrt, v, vmax);
      RescaleKeepsDirection(sqrt, v, vmax);
      Scale(vmax, Scale(1.0 / n, v))
    else
      v
  }

  /**
   `actualizar_estado`: add the boundary force to the flocking force,
   integrate it into the velocity over `dt`, cap the speed, and advance the
   position by `dt` times the new, capped velocity.
   */
  function UpdateState(sqrt: real -> real, me: Agent, force: Vec2, dt: real, vmax: real, world: World): (next: Agent)
    requires IsSqrt(sqrt) && 0.0 <= vmax
    ensures var v := Add(me.vel, Scale(dt, Add(force, BoundaryForce(me.pos, world))));
      && NormSq(next.vel) <= vmax * vmax
      && (NormSq(v) <= vmax * vmax ==> next.vel == v)
      && (vmax * vmax < NormSq(v) ==>
            NormSq(next.vel) == vmax * vmax && Cross(next.vel, v) == 0.0 && (0.0 < vmax ==> 0.0 < Dot(next.vel, v)))
      && next.pos == Add(me.pos, Scale(dt, next.vel))
  {
    var v := Add(me.vel, Scale(dt, Add(force, BoundaryForce(me.pos, world))));
    var w := LimitSpeed(sqrt, v, vmax);
    Agent(Add(me.pos, Scale(dt, w)), w)
  }

  // ---------------------------------------------------------------------------
  // One tick

  /** The first phase of a tick: the force on every boid, from the flock as it stands. */
  method ComputeForces(sqrt: real -> real, flock: seq<Agent>, p: Params) returns (forces: seq<Vec2>)
    requires IsSqrt(sqrt)
    ensures |forces| == |flock|
    ensures forall i :: 0 <= i < |flock| ==> forces[i] == TotalForce(flock[i], flock, p)
  {
    forces := [];
    for i := 0 to |flock|
      invariant |forces| == i
      invariant forall j :: 0 <= j < i ==> forces[j] == TotalForce(flock[j], flock, p)
    {
      var f := CalculateForces(sqrt, flock[i], flock, p);
      forces := forces + [f];
    }
  }

  /** The second phase of a tick: every boid updated with its own, precomputed force. */
  method Commit(sqrt: real -> real, flock: seq<Agent>, forces: seq<Vec2>, dt: real, world: World) returns (next: seq<Agent>)
    requires IsSqrt(sqrt) && |forces| == |flock|
    ensures |next| == |flock|
    ensures forall i :: 0 <= i < |flock| ==> next[i] == UpdateState(sqrt, flock[i], forces[i], dt, MaxSpeed, world)
  {
    next := [];
    for i := 0 to |flock|
      invariant |next| == i
      invariant forall j :: 0 <= j < i ==> next[j] == UpdateState(sqrt, flock[j], forces[j], dt, MaxSpeed, world)
    {
      next := next + [UpdateState(sqrt, flock[i], forces[i], dt, MaxSpeed, world)];
    }
  }

  /**
   `actualizar_animacion`: first the force on every boid is computed from the
   flock as it stands, then every boid is updated with its own force.
   */
  method Step(sqrt: real -> real, flock: seq<Agent>, p: Params, world: World) returns (next: seq<Agent>)
    requires IsSqrt(sqrt)
    ensures |next| == |flock|
    ensures forall i :: 0 <= i < |flock| ==>
      next[i] == UpdateState(sqrt, flock[i], TotalForce(flock[i], flock, p), p.dt, MaxSpeed, world)
    ensures forall i :: 0 <= i < |flock| ==> NormSq(next[i].vel) <= MaxSpeed * MaxSpeed
  {
    var forces := ComputeForces(sqrt, flock, p);
    next := Commit(sqrt, flock, forces, p.dt, world);
  }

  /** An agent that moved by `dt` times a velocity of speed at most `vmax` moved at most `dt · vmax`. */
  lemma Displacement(before: Agent, after: Agent, dt: real, vmax: real)
    requires 0.0 <= dt
    requires after.pos == Add(before.pos, Scale(dt, after.vel)) && NormSq(after.vel) <= vmax * vmax
    ensures NormSq(Sub(after.pos, before.pos)) <= (dt * vmax) * (dt * vmax)
  {
    assert Sub(after.pos, before.pos) == Scale(dt, after.vel);
    NormSqScale(dt, after.vel);
    var d2, n, m := dt * dt, NormSq(after.vel), vmax * vmax;
    assert d2 * n <= d2 * m;
    assert (dt * vmax) * (dt * vmax) == d2 * m;
  }

  /**
   `actualizar_animacion` with the script's constants: the weights, radii
   and period of `Simulation` in the `Arena`. With period 0.01 and speed
   ceiling 10, no boid moves farther than 0.1 in one tick.
   */
  method AnimationTick(sqrt: real -> real, flock: seq<Agent>) returns (next: seq<Agent>)
    requires IsSqrt(sqrt)
    ensures |next| == |flock|
    ensures forall i :: 0 <= i < |flock| ==>
      next[i] == UpdateState(sqrt, flock[i], TotalForce(flock[i], flock, Simulation), Simulation.dt, MaxSpeed, Arena)
    ensures forall i :: 0 <= i < |flock| ==> NormSq(Sub(next[i].pos, flock[i].pos)) <= 0.01
  {
    next := Step(sqrt, flock, Simulation, Arena);
    forall i | 0 <= i < |flock|
      ensures NormSq(Sub(next[i].pos, flock[i].pos)) <= 0.01
    {
      TickDisplacement(sqrt, flock[i], TotalForce(flock[i], flock, Simulation));
    }
  }

  /** One update with the script's period and the default ceiling moves a boid by at most 0.1. */
  lemma TickDisplacement(sqrt: real -> real, me: Agent, force: Vec2)
    requires IsSqrt(sqrt)
    ensures NormSq(Sub(UpdateState(sqrt, me, force, Simulation.dt, MaxSpeed, Arena).pos, me.pos)) <= 0.01
  {
    var next := UpdateState(sqrt, me, force, Simulation.dt, MaxSpeed, Arena);
    Displacement(me, next, 0.01, 10.0);
  }
}
