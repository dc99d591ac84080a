/** Autonomous motion: patrols and wanderers. A step gets its time in seconds. */
module Npcs {
  import opened Ids
  import opened Grids
  import opened Objects

  /** moveAxis: no further than `delta` toward the target. It reports a move unless already there. */
  function Toward(pos: real, target: real, delta: real): real {
    if pos == target then pos
    else if Gap(pos, target) <= delta then target
    else if target > pos then pos + delta
    else pos - delta
  }

  function Gap(a: real, b: real): real {
    if a <= b then b - a else a - b
  }

  /** `k` moves on one axis. */
  function Walk(pos: real, target: real, delta: real, k: nat): real {
    if k == 0 then pos else Toward(Walk(pos, target, delta, k - 1), target, delta)
  }

  function Travelled(k: nat, delta: real): real {
    k as real * delta
  }

  function Max(a: real, b: real): real {
    if a <= b then b else a
  }

  /** The distance left on an axis after `k` steps is max(0, d - k * delta). */
  lemma {:induction false} WalkLeaves(pos: real, target: real, delta: real, k: nat)
    requires delta > 0.0
    ensures Gap(Walk(pos, target, delta, k), target) == Max(0.0, Gap(pos, target) - Travelled(k, delta))
  {
    if k > 0 {
      WalkLeaves(pos, target, delta, k - 1);
      assert Travelled(k, delta) == Travelled(k - 1, delta) + delta;
    } else {
      assert Travelled(0, delta) == 0.0;
    }
  }

  // ---------- patrol ----------

  datatype Patroller = Patroller(pos: Vec, target: nat)

  function PatrolStep(way: seq<Vec>, delta: real, s: Patroller): Patroller
    requires s.target < |way|
  {
    var wp := way[s.target];
    var pos := s.pos.(x := Toward(s.pos.x, wp.x, delta), z := Toward(s.pos.z, wp.z, delta));
    Patroller(pos, if pos.x == wp.x && pos.z == wp.z then (s.target + 1) % |way| else s.target)
  }

  function Patrol(way: seq<Vec>, delta: real, s: Patroller, k: nat): (r: Patroller)
    requires s.target < |way|
    ensures r.target < |way|
  {
    if k == 0 then s else PatrolStep(way, delta, Patrol(way, delta, s, k - 1))
  }

  function Distance(way: seq<Vec>, s: Patroller): real
    requires s.target < |way|
  {
    Max(Gap(s.pos.x, way[s.target].x), Gap(s.pos.z, way[s.target].z))
  }

  /** max(1, ceil(d / delta)). */
  function StepsFor(d: real, delta: real): (n: nat)
    requires d >= 0.0 && delta > 0.0
    ensures n >= 1
  {
    if d / delta <= 1.0 then 1 else Ceil(d / delta)
  }

  lemma Ordered(a: real, b: real, delta: real)
    requires a < b && delta > 0.0
    ensures a * delta < b * delta
  {
    var c := b - a;
    assert c * delta > 0.0;
    assert b * delta == a * delta + c * delta;
  }

  /** `StepsFor` steps are enough and fewer are not. */
  lemma StepsForIsExact(d: real, delta: real, k: nat)
    requires d >= 0.0 && delta > 0.0
    ensures k >= StepsFor(d, delta) ==> Travelled(k, delta) >= d
    ensures 1 <= k < StepsFor(d, delta) ==> Travelled(k, delta) < d
  {
    var q := d / delta;
    assert q * delta == d;
    if k as real < q { Ordered(k as real, q, delta); }
    if q < k as real { Ordered(q, k as real, delta); }
  }

  /** While the waypoint is not reached the patrol is a walk on both axes: after `k` steps
      max(0, d - k * delta) is left on each. */
  lemma {:induction false} LegWalks(way: seq<Vec>, delta: real, s: Patroller, k: nat)
    requires s.target < |way| && delta > 0.0 && k < StepsFor(Distance(way, s), delta)
    ensures var r := Patrol(way, delta, s, k);
            && r.target == s.target
            && r.pos.x == Walk(s.pos.x, way[s.target].x, delta, k) && r.pos.z == Walk(s.pos.z, way[s.target].z, delta, k)
            && Gap(r.pos.x, way[s.target].x) == Max(0.0, Gap(s.pos.x, way[s.target].x) - Travelled(k, delta))
            && Gap(r.pos.z, way[s.target].z) == Max(0.0, Gap(s.pos.z, way[s.target].z) - Travelled(k, delta))
  {
    WalkLeaves(s.pos.x, way[s.target].x, delta, k);
    WalkLeaves(s.pos.z, way[s.target].z, delta, k);
    if k > 0 {
      LegWalks(way, delta, s, k - 1);
      StepsForIsExact(Distance(way, s), delta, k);
    }
  }

  /** A waypoint is reached after exactly max(1, ceil(d / delta)) steps, d being the greater of the
      two axis distances: not one step earlier, and then the next one in the cycle is the target. */
  lemma LegArrives(way: seq<Vec>, delta: real, s: Patroller)
    requires s.target < |way| && delta > 0.0
    ensures var r := Patrol(way, delta, s, StepsFor(Distance(way, s), delta));
            && r.pos.x == way[s.target].x && r.pos.z == way[s.target].z
            && r.target == (s.target + 1) % |way|
    ensures forall k :: 0 <= k < StepsFor(Distance(way, s), delta) ==> Patrol(way, delta, s, k).target == s.target
  {
    var n := StepsFor(Distance(way, s), delta);
    forall k | 0 <= k < n ensures Patrol(way, delta, s, k).target == s.target { LegWalks(way, delta, s, k); }
    LegWalks(way, delta, s, n - 1);
    WalkLeaves(s.pos.x, way[s.target].x, delta, n);
    WalkLeaves(s.pos.z, way[s.target].z, delta, n);
    StepsForIsExact(Distance(way, s), delta, n);
  }

  /** The number of steps in which the next `m` waypoints are visited. */
  function TourSteps(way: seq<Vec>, delta: real, s: Patroller, m: nat): nat
    requires s.target < |way| && delta > 0.0
    decreases m
  {
    if m == 0 then 0 else
    var n := StepsFor(Distance(way, s), delta);
    n + TourSteps(way, delta, Patrol(way, delta, s, n), m - 1)
  }

  lemma {:induction false} PatrolOn(way: seq<Vec>, delta: real, s: Patroller, a: nat, b: nat)
    requires s.target < |way|
    ensures Patrol(way, delta, s, a + b) == Patrol(way, delta, Patrol(way, delta, s, a), b)
    decreases b
  {
    if b > 0 { PatrolOn(way, delta, s, a, b - 1); }
  }

  /** The index `m` places further round a cycle of `n`. */
  function Ahead(t: nat, m: nat, n: nat): (i: nat)
    requires t < n
    ensures i < n
    decreases m
  {
    if m == 0 then t else Ahead(if t + 1 == n then 0 else t + 1, m - 1, n)
  }

  lemma Successor(t: nat, n: nat)
    requires t < n
    ensures (t + 1) % n == if t + 1 == n then 0 else t + 1
  {
  }

  /** Waypoints are visited in cyclic order forever: for every `m` the m-th next one is reached. */
  lemma {:induction false} VisitsInCyclicOrder(way: seq<Vec>, delta: real, s: Patroller, m: nat)
    requires s.target < |way| && delta > 0.0
    ensures var r := Patrol(way, delta, s, TourSteps(way, delta, s, m));
            && r.target == Ahead(s.target, m, |way|)
            && (m > 0 ==> var wp := way[Ahead(s.target, m - 1, |way|)]; r.pos.x == wp.x && r.pos.z == wp.z)
    decreases m
  {
    if m > 0 {
      var n := StepsFor(Distance(way, s), delta);
      var t := Patrol(way, delta, s, n);
      LegArrives(way, delta, s);
      Successor(s.target, |way|);
      VisitsInCyclicOrder(way, delta, t, m - 1);
      PatrolOn(way, delta, s, n, TourSteps(way, delta, t, m - 1));
    }
  }

  class PatrolBehavior {
    const speed: real
    const waypoints: seq<Vec>
    var target: nat

    constructor (speed: real, waypoints: seq<Vec>)
      ensures this.speed == speed && this.waypoints == waypoints && target == 0
    {
      this.speed, this.waypoints, target := speed, waypoints, 0;
    }

    method Step(e: Entity, dt: real) returns (moved: bool)
      requires waypoints != [] ==> target < |waypoints|
      modifies this, e`position
      ensures moved == (waypoints != [])
      ensures waypoints == [] ==> e.position == old(e.position) && target == old(target)
      ensures waypoints != [] ==> Patroller(e.position, target) == PatrolStep(waypoints, speed * dt, old(Patroller(e.position, target)))
    {
      if |waypoints| == 0 { return false; }
      var wp := waypoints[target];
      var delta := speed * dt;
      e.position := e.position.(x := Toward(e.position.x, wp.x, delta));
      e.position := e.position.(z := Toward(e.position.z, wp.z, delta));
      if e.position.x == wp.x && e.position.z == wp.z { target := (target + 1) % |waypoints|; }
      moved := true;
    }
  }

  // ---------- wander ----------

  const PAUSE_MS := 500

  /** `target` at the origin of coordinates stands for no target. */
  datatype Wanderer = Wanderer(pos: Vec, target: Vec, pause: real)

  /** One call: the random offset it would draw, the distance it may move, and its time in ms. */
  datatype Beat = Beat(dx: real, dz: real, delta: real, dt: real)

  function WanderStep(home: Vec, s: Wanderer, b: Beat): Wanderer {
    if s.pause > 0.0 then s.(pause := s.pause - b.dt) else
    var target := if s.target == ORIGIN then Vec(home.x + b.dx, 0.0, home.z + b.dz) else s.target;
    if s.pos.x != target.x then s.(target := target, pos := s.pos.(x := Toward(s.pos.x, target.x, b.delta)))
    else if s.pos.z != target.z then s.(target := target, pos := s.pos.(z := Toward(s.pos.z, target.z, b.delta)))
    else s.(target := ORIGIN, pause := PAUSE_MS as real)
  }

  function Wander(home: Vec, s: Wanderer, beats: seq<Beat>): Wanderer
    decreases |beats|
  {
    if beats == [] then s else Wander(home, WanderStep(home, s, beats[0]), beats[1..])
  }

  predicate InSquare(home: Vec, radius: real, p: Vec) {
    Gap(p.x, home.x) <= radius && Gap(p.z, home.z) <= radius
  }

  /** The draw is within the disc, so on each axis within the radius; time does not go back. */
  predicate Fair(radius: real, b: Beat) {
    -radius <= b.dx <= radius && -radius <= b.dz <= radius && b.delta >= 0.0
  }

  predicate Home(home: Vec, radius: real, s: Wanderer) {
    InSquare(home, radius, s.pos) && (s.target == ORIGIN || InSquare(home, radius, s.target))
  }

  /** A wanderer that starts inside the square never leaves it: every draw, every time step, every
      pattern of pauses. */
  lemma {:induction false} WandererStaysHome(home: Vec, radius: real, s: Wanderer, beats: seq<Beat>)
    requires Home(home, radius, s) && forall i :: 0 <= i < |beats| ==> Fair(radius, beats[i])
    ensures Home(home, radius, Wander(home, s, beats)) && Wander(home, s, beats).pos.y == s.pos.y
    decreases |beats|
  {
    if beats != [] {
      assert Fair(radius, beats[0]);
      WandererStaysHome(home, radius, WanderStep(home, s, beats[0]), beats[1..]);
    }
  }

  // A wanderer with a target, not pausing, first closes the X gap and then the Z gap.

  ghost predicate Steady(beats: seq<Beat>, delta: real) {
    forall i :: 0 <= i < |beats| ==> beats[i].delta == delta
  }

  function AxisSteps(gap: real, delta: real): (n: int)
    requires delta > 0.0
  {
    Ceil(gap / delta)
  }

  lemma QuotientOrder(gap: real, n: real, delta: real)
    requires delta > 0.0
    ensures gap < n * delta ==> gap / delta < n
    ensures gap > n * delta ==> gap / delta > n
    ensures gap == n * delta ==> gap / delta == n
  {
    var q := gap / delta;
    assert q * delta == gap;
    if q < n { Ordered(q, n, delta); }
    if n < q { Ordered(n, q, delta); }
  }

  lemma AxisStepsFall(gap: real, delta: real)
    requires delta > 0.0 && gap >= 0.0
    ensures AxisSteps(gap, delta) == if gap > 0.0 then AxisSteps(Max(0.0, gap - delta), delta) + 1 else 0
  {
    var q := gap / delta;
    assert q * delta == gap && (q - 1.0) * delta == gap - delta;
    QuotientOrder(gap, 0.0, delta);
    QuotientOrder(gap, 1.0, delta);
    QuotientOrder(0.0, 0.0, delta);
    QuotientOrder(gap - delta, q - 1.0, delta);
  }

  lemma {:induction false} ClosesX(home: Vec, s: Wanderer, beats: seq<Beat>, delta: real)
    requires delta > 0.0 && Steady(beats, delta) && s.pause <= 0.0 && s.target != ORIGIN
    requires |beats| == AxisSteps(Gap(s.pos.x, s.target.x), delta)
    ensures Wander(home, s, beats) == s.(pos := s.pos.(x := s.target.x))
    decreases |beats|
  {
    AxisStepsFall(Gap(s.pos.x, s.target.x), delta);
    if s.pos.x != s.target.x {
      var t := WanderStep(home, s, beats[0]);
      assert Gap(t.pos.x, t.target.x) == Max(0.0, Gap(s.pos.x, s.target.x) - delta);
      AxisStepsFall(Gap(t.pos.x, t.target.x), delta);
      ClosesX(home, t, beats[1..], delta);
    }
  }

  lemma {:induction false} ClosesZ(home: Vec, s: Wanderer, beats: seq<Beat>, delta: real)
    requires delta > 0.0 && Steady(beats, delta) && s.pause <= 0.0 && s.target != ORIGIN && s.pos.x == s.target.x
    requires |beats| == AxisSteps(Gap(s.pos.z, s.target.z), delta)
    ensures Wander(home, s, beats) == s.(pos := s.pos.(z := s.target.z))
    decreases |beats|
  {
    AxisStepsFall(Gap(s.pos.z, s.target.z), delta);
    if s.pos.z != s.target.z {
      var t := WanderStep(home, s, beats[0]);
      assert Gap(t.pos.z, t.target.z) == Max(0.0, Gap(s.pos.z, s.target.z) - delta);
      AxisStepsFall(Gap(t.pos.z, t.target.z), delta);
      ClosesZ(home, t, beats[1..], delta);
    }
  }

  lemma {:induction false} WanderOn(home: Vec, s: Wanderer, a: seq<Beat>, b: seq<Beat>)
    ensures Wander(home, s, a + b) == Wander(home, Wander(home, s, a), b)
    decreases |a|
  {
    if a == [] {
      assert a + b == b;
    } else {
      assert (a + b)[1..] == a[1..] + b;
      WanderOn(home, WanderStep(home, s, a[0]), a[1..], b);
    }
  }

  /** At a steady pace a wanderer stands on its target after ceil(dx / delta) + ceil(dz / delta) steps,
      one axis after the other, and the step after that starts the pause. */
  lemma WandererArrives(home: Vec, s: Wanderer, xs: seq<Beat>, zs: seq<Beat>, last: Beat, delta: real)
    requires delta > 0.0 && Steady(xs, delta) && Steady(zs, delta) && s.pause <= 0.0 && s.target != ORIGIN
    requires |xs| == AxisSteps(Gap(s.pos.x, s.target.x), delta) && |zs| == AxisSteps(Gap(s.pos.z, s.target.z), delta)
    ensures Wander(home, s, xs + zs) == s.(pos := s.pos.(x := s.target.x, z := s.target.z))
    ensures Wander(home, s, xs + zs + [last]) == s.(pos := s.pos.(x := s.target.x, z := s.target.z), target := ORIGIN, pause := 500.0)
  {
    ClosesX(home, s, xs, delta);
    ClosesZ(home, s.(pos := s.pos.(x := s.target.x)), zs, delta);
    WanderOn(home, s, xs, zs);
    WanderOn(home, s, xs + zs, [last]);
  }

  /** With steady time steps a wanderer rests for exactly ceil(pause / dt) of them, where it stands, and no
      longer. */
  lemma {:induction false} RestLasts(home: Vec, s: Wanderer, beats: seq<Beat>, dt: real)
    requires dt > 0.0 && (forall i :: 0 <= i < |beats| ==> beats[i].dt == dt) && |beats| == AxisSteps(Max(0.0, s.pause), dt)
    ensures var t := Wander(home, s, beats); t.pause <= 0.0 && t == s.(pause := t.pause)
    ensures forall k :: 0 <= k < |beats| ==> Wander(home, s, beats[..k]).pause > 0.0
    decreases |beats|
  {
    AxisStepsFall(Max(0.0, s.pause), dt);
    if s.pause > 0.0 {
      var t := WanderStep(home, s, beats[0]);
      AxisStepsFall(Max(0.0, t.pause), dt);
      RestLasts(home, t, beats[1..], dt);
      forall k | 0 <= k < |beats| ensures Wander(home, s, beats[..k]).pause > 0.0 {
        if k > 0 { assert beats[..k][1..] == beats[1..][..k - 1]; }
      }
    }
  }

  /** Rested and without a target, a wanderer sets out for the drawn point around its home. */
  lemma WandererSetsOut(home: Vec, s: Wanderer, b: Beat)
    requires s.pause <= 0.0 && s.target == ORIGIN && b.delta >= 0.0
    ensures var t, goal := WanderStep(home, s, b), Vec(home.x + b.dx, 0.0, home.z + b.dz);
            && (s.pos.x != goal.x || s.pos.z != goal.z ==> t.target == goal && t.pause == s.pause)
            && (s.pos.x != goal.x ==> Gap(t.pos.x, goal.x) == Max(0.0, Gap(s.pos.x, goal.x) - b.delta) && t.pos.z == s.pos.z)
            && (s.pos.x == goal.x ==> Gap(t.pos.z, goal.z) == Max(0.0, Gap(s.pos.z, goal.z) - b.delta) && t.pos.x == s.pos.x)
  {
  }

  class WanderBehavior {
    const home: Vec
    const radius: real
    const speed: real
    var target: Vec
    var pause: real

    constructor (home: Vec, radius: real, speed: real)
      ensures this.home == home && this.radius == radius && this.speed == speed && target == ORIGIN && pause == 0.0
    {
      this.home, this.radius, this.speed, target, pause := home, radius, speed, ORIGIN, 0.0;
    }

    method Step(e: Entity, dt: real, dx: real, dz: real) returns (moved: bool)
      modifies this, e`position
      ensures moved == (old(pause) <= 0.0)
      ensures Wanderer(e.position, target, pause) == WanderStep(home, old(Wanderer(e.position, target, pause)), Beat(dx, dz, speed * (dt / 1000.0), dt))
    {
      if pause > 0.0 {
        pause := pause - dt;
        return false;
      }
      if target == ORIGIN { target := Vec(home.x + dx, 0.0, home.z + dz); }
      var delta := speed * (dt / 1000.0);
      var went := e.position.x != target.x;
      e.position := e.position.(x := Toward(e.position.x, target.x, delta));
      if !went {
        went := e.position.z != target.z;
        e.position := e.position.(z := Toward(e.position.z, target.z, delta));
      }
      if !went {
        target := ORIGIN;
        pause := PAUSE_MS as real;
      }
      moved := true;
    }
  }
}
