/** What a client holds after replaying its events, over whole runs. */
module Clients {
  import opened Ids
  import opened Objects
  import opened Worlds
  import opened Invariants
  import opened Visibility

  // ---------- replaying events ----------

  function Hear(S: set<Id>, ev: Event, x: Id): set<Id> {
    if ev.observer != x then S
    else match ev.kind
      case Spawn => S + {ev.subject}
      case Despawn => S - {ev.subject}
      case Moved => S
  }

  /** The ids client `x` holds after hearing `evs` from an empty start. */
  function Replay(evs: seq<Event>, x: Id): set<Id> {
    if evs == [] then {} else Hear(Replay(evs[..|evs| - 1], x), evs[|evs| - 1], x)
  }

  /** Every event of a log, dropped or not. */
  function Events(log: seq<Attempt>): (evs: seq<Event>)
    ensures |evs| == |log| && forall i :: 0 <= i < |log| ==> evs[i] == log[i].event
  {
    if log == [] then [] else Events(log[..|log| - 1]) + [log[|log| - 1].event]
  }

  /** The events of a log that reached the channel. */
  function Accepted(log: seq<Attempt>): seq<Event> {
    if log == [] then []
    else Accepted(log[..|log| - 1]) + if log[|log| - 1].accepted then [log[|log| - 1].event] else []
  }

  /** If nothing addressed to `x` was dropped, the accepted events tell `x` the whole story. */
  lemma {:induction false} NothingMissed(log: seq<Attempt>, x: Id)
    requires forall a :: a in log && a.event.observer == x ==> a.accepted
    ensures Replay(Accepted(log), x) == Replay(Events(log), x)
    decreases |log|
  {
    if log != [] {
      var front, a := log[..|log| - 1], log[|log| - 1];
      NothingMissed(front, x);
      ReplayAppend(Events(front), a.event, x);
      ReplayAppend(Accepted(front), a.event, x);
      assert !a.accepted ==> Accepted(log) == Accepted(front);
    }
  }

  lemma ReplayAppend(evs: seq<Event>, ev: Event, x: Id)
    ensures Replay(evs + [ev], x) == Hear(Replay(evs, x), ev, x)
  {
    assert (evs + [ev])[..|evs|] == evs;
  }

  lemma {:induction false} ReplayOthers(evs: seq<Event>, more: seq<Event>, x: Id)
    requires forall ev :: ev in more ==> ev.observer != x || ev.kind.Moved?
    ensures Replay(evs + more, x) == Replay(evs, x)
    decreases |more|
  {
    if more == [] {
      assert evs + more == evs;
    } else {
      var front, ev := more[..|more| - 1], more[|more| - 1];
      ReplayOthers(evs, front, x);
      assert evs + more == (evs + front) + [ev];
      ReplayAppend(evs + front, ev, x);
    }
  }

  // ---------- the log grows ----------

  lemma {:induction false} EventsAppend(log: seq<Attempt>, log': seq<Attempt>, evs: seq<Event>, j: nat)
    requires j <= |log| && |log'| == |log| + |evs| && log'[..|log|] == log
    requires forall i :: 0 <= i < |evs| ==> log'[|log| + i].event == evs[i]
    ensures Events(log'[j..]) == Events(log[j..]) + evs
  {
    var a, b := Events(log'[j..]), Events(log[j..]) + evs;
    assert |a| == |b|;
    forall i | 0 <= i < |a| ensures a[i] == b[i] {
      assert j + i < |log| ==> log'[..|log|][j + i] == log[j + i];
    }
  }

  // ---------- the client invariant ----------

  function Reals(S: set<Id>): set<Id> {
    set y | y in S && IsReal(y)
  }

  /** The events published to `x` since it was added, replayed, are the real ids its visible set
      holds, itself apart. */
  ghost predicate ClientOk(w: World, x: Id) {
    && x in w.entityAOI && x in w.joined && w.joined[x] <= |w.log|
    && Replay(Events(w.log[w.joined[x]..]), x) == Reals(w.entityAOI[x].visible) - {x}
  }

  ghost predicate ClientsOk(w: World) {
    forall x :: x in w.entities ==> ClientOk(w, x)
  }

  /** Events for others, and moves, leave what `x` holds alone. */
  lemma ClientGrows(w: World, w': World, x: Id)
    requires ClientOk(w, x) && x in w'.entityAOI && w'.entityAOI[x].visible == w.entityAOI[x].visible
    requires x in w'.joined && w'.joined[x] == w.joined[x]
    requires |w'.log| >= |w.log| && w'.log[..|w.log|] == w.log
    requires forall i :: |w.log| <= i < |w'.log| ==> w'.log[i].event.observer != x || w'.log[i].event.kind.Moved?
    ensures ClientOk(w', x)
  {
    var evs := Events(w'.log[|w.log|..]);
    EventsAppend(w.log, w'.log, evs, w.joined[x]);
    ReplayOthers(Events(w.log[w.joined[x]..]), evs, x);
  }

  /** Steps that publish nothing and only take observers away. */
  lemma ClientsSame(w: World, w': World)
    requires ClientsOk(w) && w'.log == w.log
    requires forall x :: x in w'.entities ==>
               x in w.entities && x in w'.entityAOI && x in w.entityAOI && w'.entityAOI[x] == w.entityAOI[x]
               && x in w'.joined && x in w.joined && w'.joined[x] == w.joined[x]
    ensures ClientsOk(w')
  {
    forall x | x in w'.entities ensures ClientOk(w', x) { assert ClientOk(w, x); }
  }

  // ---------- movement ----------

  lemma MoveClients(w: World, x: Id, p: Vec)
    requires ClientsOk(w)
    ensures ClientsOk(MoveEntity(w, x, p))
  {
    var w' := MoveEntity(w, x, p);
    forall y | y in w'.entities ensures ClientOk(w', y) {
      assert ClientOk(w, y);
      ClientGrows(w, w', y);
    }
  }

  // ---------- the visibility pass ----------

  /** The ids that the spawn events of one observer announce, and those its despawn events take back. */
  ghost function Announced(w: World, x: Id, order: seq<Id>): set<Id> {
    set y | y in order && y !in w.Visible(x) && y != x && y in w.entities.Keys
  }

  function Withdrawn(current: set<Id>, order: seq<Id>): set<Id> {
    set y | y in order && y !in current
  }

  lemma AnnouncedMore(w: World, x: Id, front: seq<Id>, y: Id)
    ensures Announced(w, x, front + [y])
         == Announced(w, x, front) + if y in w.Visible(x) || y == x || y !in w.entities then {} else {y}
  {
  }

  lemma WithdrawnMore(current: set<Id>, front: seq<Id>, y: Id)
    ensures Withdrawn(current, front + [y]) == Withdrawn(current, front) + if y in current then {} else {y}
  {
  }

  /** What the spawn events of one observer add. */
  lemma {:induction false} SpawnReplay(w: World, space: string, x: Id, order: seq<Id>, evs: seq<Event>)
    ensures Replay(evs + SpawnEvents(w, space, x, order), x) == Replay(evs, x) + Announced(w, x, order)
    decreases |order|
  {
    if order == [] {
      assert evs + [] == evs;
    } else {
      var front, y := order[..|order| - 1], order[|order| - 1];
      SpawnReplay(w, space, x, front, evs);
      AnnouncedMore(w, x, front, y);
      assert order == front + [y];
      var more := SpawnEvents(w, space, x, front);
      if y in w.Visible(x) || y == x || y !in w.entities {
        assert SpawnEvents(w, space, x, order) == more;
      } else {
        var ev := Event(Spawn, space, x, y, w.Obj(w.entities[y]).typ, w.Obj(w.entities[y]).position);
        assert evs + SpawnEvents(w, space, x, order) == (evs + more) + [ev];
        ReplayAppend(evs + more, ev, x);
      }
    }
  }

  /** What the despawn events of one observer take away. */
  lemma {:induction false} DespawnReplay(current: set<Id>, space: string, x: Id, order: seq<Id>, evs: seq<Event>)
    ensures Replay(evs + DespawnEvents(current, space, x, order), x) == Replay(evs, x) - Withdrawn(current, order)
    decreases |order|
  {
    if order == [] {
      assert evs + [] == evs;
    } else {
      var front, y := order[..|order| - 1], order[|order| - 1];
      DespawnReplay(current, space, x, front, evs);
      WithdrawnMore(current, front, y);
      assert order == front + [y];
      var more := DespawnEvents(current, space, x, front);
      if y in current {
        assert DespawnEvents(current, space, x, order) == more;
      } else {
        var ev := Event(Despawn, space, x, y, "", ORIGIN);
        assert evs + DespawnEvents(current, space, x, order) == (evs + more) + [ev];
        ReplayAppend(evs + more, ev, x);
      }
    }
  }

  lemma {:induction false} SpawnObserver(w: World, space: string, x: Id, order: seq<Id>)
    ensures forall ev :: ev in SpawnEvents(w, space, x, order) ==> ev.observer == x
    decreases |order|
  {
    if order != [] { SpawnObserver(w, space, x, order[..|order| - 1]); }
  }

  lemma {:induction false} DespawnObserver(current: set<Id>, space: string, x: Id, order: seq<Id>)
    ensures forall ev :: ev in DespawnEvents(current, space, x, order) ==> ev.observer == x
    decreases |order|
  {
    if order != [] { DespawnObserver(current, space, x, order[..|order| - 1]); }
  }

  function DeltaEvents(w: World, space: string, x: Id, current: set<Id>, spawns: seq<Id>, despawns: seq<Id>): seq<Event> {
    SpawnEvents(w, space, x, spawns) + DespawnEvents(current, space, x, despawns)
  }

  /** The difference sent by one observation turns the old visible set into the new one, provided
      every newly visible real id is live. */
  lemma DeltaReplay(w: World, space: string, x: Id, current: set<Id>, spawns: seq<Id>, despawns: seq<Id>, evs: seq<Event>)
    requires Visits(spawns, current) && Visits(despawns, w.Visible(x))
    requires Replay(evs, x) == Reals(w.Visible(x)) - {x}
    requires forall y :: y in w.entities ==> IsReal(y)
    requires forall y :: y in current && IsReal(y) ==> y in w.entities
    ensures Replay(evs + DeltaEvents(w, space, x, current, spawns, despawns), x) == Reals(current) - {x}
  {
    var spawned := SpawnEvents(w, space, x, spawns);
    SpawnReplay(w, space, x, spawns, evs);
    DespawnReplay(current, space, x, despawns, evs + spawned);
    assert evs + DeltaEvents(w, space, x, current, spawns, despawns)
        == (evs + spawned) + DespawnEvents(current, space, x, despawns);
    DeltaSets(w.Visible(x), current, w.entities.Keys, spawns, despawns, x);
  }

  lemma DeltaSets(visible: set<Id>, current: set<Id>, live: set<Id>, spawns: seq<Id>, despawns: seq<Id>, x: Id)
    requires Visits(spawns, current) && Visits(despawns, visible)
    requires forall y :: y in live ==> IsReal(y)
    requires forall y :: y in current && IsReal(y) ==> y in live
    ensures Reals(visible) - {x} + (set y | y in spawns && y !in visible && y != x && y in live)
            - (set y | y in despawns && y !in current)
         == Reals(current) - {x}
  {
  }

  lemma ObserveClients(w: World, z: ZoneId, x: Id, spawns: seq<Id>, despawns: seq<Id>)
    requires ClientsOk(w) && ZonesOk(w) && Agree(w) && AllSettled(w)
    requires Enabled(w, ObserveOne(z, x, spawns, despawns))
    ensures ClientsOk(Observe(w, z, x, spawns, despawns))
  {
    if z in w.zones && x in w.zones[z].entities {
      var w' := Observe(w, z, x, spawns, despawns);
      assert Settled(w, z);
      if x in w.entities { ObserveSelf(w, z, x, spawns, despawns); }
      ObserveLog(w, z, x, spawns, despawns);
      ObserveOthers(w, w', x);
    }
  }

  lemma ObserveOthers(w: World, w': World, x: Id)
    requires ClientsOk(w) && w'.entities == w.entities && w'.joined == w.joined
    requires x in w'.entityAOI && w'.entityAOI == w.entityAOI[x := w'.entityAOI[x]]
    requires |w'.log| >= |w.log| && w'.log[..|w.log|] == w.log
    requires forall i :: |w.log| <= i < |w'.log| ==> w'.log[i].event.observer == x
    requires x in w.entities ==> ClientOk(w', x)
    ensures ClientsOk(w')
  {
    forall y | y in w'.entities ensures ClientOk(w', y) {
      assert ClientOk(w, y);
      if y != x { ClientGrows(w, w', y); }
    }
  }

  /** An observation publishes to its observer only. */
  lemma ObserveLog(w: World, z: ZoneId, x: Id, spawns: seq<Id>, despawns: seq<Id>)
    requires z in w.zones && x in w.zones[z].entities
    ensures var w' := Observe(w, z, x, spawns, despawns);
            var evs := DeltaEvents(w, w.Obj(w.zones[z].entities[x]).runtimeId, x, w.Surroundings(z, x), spawns, despawns);
            && |w'.log| == |w.log| + |evs| && w'.log[..|w.log|] == w.log
            && (forall i :: 0 <= i < |evs| ==> w'.log[|w.log| + i].event == evs[i])
            && (forall i :: |w.log| <= i < |w'.log| ==> w'.log[i].event.observer == x)
  {
    var space, current := w.Obj(w.zones[z].entities[x]).runtimeId, w.Surroundings(z, x);
    var evs := DeltaEvents(w, space, x, current, spawns, despawns);
    SpawnObserver(w, space, x, spawns);
    DespawnObserver(current, space, x, despawns);
    PublishedIn(w, evs);
    assert Observe(w, z, x, spawns, despawns).log == w.PublishAll(evs).log;
  }

  /** Whatever real id the pass sees in a settled zone is live. */
  lemma SeenIsLive(w: World, z: ZoneId, x: Id)
    requires ZonesOk(w) && Agree(w) && z in w.zones && x in w.zones[z].entities && Settled(w, z)
    ensures forall y :: y in w.Surroundings(z, x) && IsReal(y) ==> y in w.entities
    ensures forall y :: y in w.entities ==> IsReal(y)
  {
    forall y | y in w.Surroundings(z, x) && IsReal(y) ensures y in w.entities {
      RangeOfSettled(w, z, w.Obj(w.zones[z].entities[x]).position, AOI_RADIUS, y);
    }
    forall y | y in w.entities ensures IsReal(y) { assert LiveOk(w, y); }
  }

  lemma ObserveSelf(w: World, z: ZoneId, x: Id, spawns: seq<Id>, despawns: seq<Id>)
    requires ClientOk(w, x) && ZonesOk(w) && Agree(w) && z in w.zones && x in w.zones[z].entities && Settled(w, z)
    requires Enabled(w, ObserveOne(z, x, spawns, despawns))
    ensures ClientOk(Observe(w, z, x, spawns, despawns), x)
  {
    SeenIsLive(w, z, x);
    ObserveSeen(w, z, x, spawns, despawns);
  }

  lemma ObserveSeen(w: World, z: ZoneId, x: Id, spawns: seq<Id>, despawns: seq<Id>)
    requires ClientOk(w, x) && z in w.zones && x in w.zones[z].entities
    requires Enabled(w, ObserveOne(z, x, spawns, despawns))
    requires forall y :: y in w.Surroundings(z, x) && IsReal(y) ==> y in w.entities
    requires forall y :: y in w.entities ==> IsReal(y)
    ensures ClientOk(Observe(w, z, x, spawns, despawns), x)
  {
    var space, current := w.Obj(w.zones[z].entities[x]).runtimeId, w.Surroundings(z, x);
    var evs := DeltaEvents(w, space, x, current, spawns, despawns);
    DeltaReplay(w, space, x, current, spawns, despawns, Events(w.log[w.joined[x]..]));
    ObserveLog(w, z, x, spawns, despawns);
    EventsAppend(w.log, Observe(w, z, x, spawns, despawns).log, evs, w.joined[x]);
  }

  // ---------- every step, every run ----------

  lemma AddClients(w: World, e: Entity, v: EntityVal)
    requires ClientsOk(w)
    ensures ClientsOk(AddEntity(w, e, v))
  {
    var w' := AddEntity(w, e, v);
    forall y | y in w'.entities ensures ClientOk(w', y) {
      if y == v.id { assert w'.log[w'.joined[y]..] == []; } else { assert ClientOk(w, y); }
    }
  }

  lemma StepClients(w: World, op: Op)
    requires ZonesOk(w) && Agree(w) && AllSettled(w) && ClientsOk(w) && Enabled(w, op)
    ensures ClientsOk(Step(w, op))
  {
    if op.ObserveOne? {
      ObserveClients(w, op.z, op.x, op.spawns, op.despawns);
    } else if op.MoveTo? {
      MoveClients(w, op.x, op.p);
    } else {
      OtherClients(w, op);
    }
  }

  lemma ReleaseClients(w: World, z: ZoneId)
    requires ClientsOk(w)
    ensures ClientsOk(ReleaseZone(w, z))
  {
    forall x | x in w.entities ensures x in w.entityAOI && x in w.joined { assert ClientOk(w, x); }
    ClientsSame(w, ReleaseZone(w, z));
  }

  lemma RemoveClients(w: World, x: Id)
    requires ClientsOk(w)
    ensures ClientsOk(RemoveEntity(w, x))
  {
    forall y | y in w.entities ensures y in w.entityAOI && y in w.joined { assert ClientOk(w, y); }
    ClientsSame(w, RemoveEntity(w, x));
  }

  lemma SweepClients(w: World, x: Id, now: int)
    requires ClientsOk(w)
    ensures ClientsOk(SweepSession(w, x, now))
  {
    forall y | y in w.entities ensures y in w.entityAOI && y in w.joined { assert ClientOk(w, y); }
    ClientsSame(w, SweepSession(w, x, now));
  }

  lemma OtherClients(w: World, op: Op)
    requires ClientsOk(w) && !op.MoveTo? && !op.ObserveOne?
    ensures ClientsOk(Step(w, op))
  {
    match op
    case Add(e, v) => AddClients(w, e, v);
    case Release(z) => ReleaseClients(w, z);
    case Remove(x) => RemoveClients(w, x);
    case SweepOne(x, now) => SweepClients(w, x, now);
    case _ => QuietClients(w, op);
  }

  lemma QuietClients(w: World, op: Op)
    requires ClientsOk(w)
    requires !op.Add? && !op.MoveTo? && !op.ObserveOne? && !op.Release? && !op.Remove? && !op.SweepOne?
    ensures ClientsOk(Step(w, op))
  {
    forall x | x in w.entities ensures x in w.entityAOI && x in w.joined { assert ClientOk(w, x); }
    ClientsSame(w, Step(w, op));
  }

  lemma FrontDisciplined(w: World, ops: seq<Op>)
    requires AllDisciplined(w, ops) && ops != []
    ensures AllDisciplined(w, ops[..|ops| - 1]) && Disciplined(Run(w, ops[..|ops| - 1]), ops[|ops| - 1])
  {
    var front := ops[..|ops| - 1];
    assert forall i :: 0 <= i < |front| ==> front[i] == ops[i] && front[..i] == ops[..i];
  }

  ghost predicate Good(w: World) {
    Inv(w) && AllSettled(w) && ClientsOk(w)
  }

  lemma StepGood(w: World, op: Op)
    requires Good(w) && Enabled(w, op) && Disciplined(w, op)
    ensures Good(Step(w, op))
  {
    StepKeeps(w, op);
    StepSettled(w, op);
    StepClients(w, op);
  }

  /** Every disciplined run, from any good state, keeps grids settled and clients consistent. */
  lemma {:induction false} DisciplinedRunFrom(w: World, ops: seq<Op>)
    requires Good(w) && AllEnabled(w, ops) && AllDisciplined(w, ops)
    ensures Good(Run(w, ops))
    decreases |ops|
  {
    if ops != [] {
      var front, op := ops[..|ops| - 1], ops[|ops| - 1];
      FrontEnabled(w, ops);
      FrontDisciplined(w, ops);
      DisciplinedRunFrom(w, front);
      StepGood(Run(w, front), op);
    }
  }

  lemma DisciplinedRun(ops: seq<Op>)
    requires AllEnabled(Start(), ops) && AllDisciplined(Start(), ops)
    ensures Good(Run(Start(), ops))
  {
    DisciplinedRunFrom(Start(), ops);
  }

  // ---------- the pass over a zone ----------

  /** `pass` is updateVisibility of zone `z`: every entity of the zone observes once, in `order`. */
  ghost predicate IsPass(w: World, z: ZoneId, pass: seq<Op>, order: seq<Id>) {
    && z in w.zones && |pass| == |order| && Visits(order, w.zones[z].entities.Keys)
    && (forall i :: 0 <= i < |pass| ==> pass[i].ObserveOne? && pass[i].z == z && pass[i].x == order[i])
  }

  /** `w'` is `w` after some observations. */
  ghost predicate Observed(w: World, w': World) {
    w' == w.(log := w'.log, channel := w'.channel, entityAOI := w'.entityAOI)
  }

  lemma ObserveSees(w: World, v: World, z: ZoneId, x: Id, spawns: seq<Id>, despawns: seq<Id>)
    requires Observed(w, v) && z in w.zones && x in w.zones[z].entities
    ensures var v' := Observe(v, z, x, spawns, despawns);
            && Observed(w, v') && x in v'.entityAOI
            && v'.entityAOI == v.entityAOI[x := AoiState(w.Surroundings(z, x), v'.entityAOI[x].lastPosition)]
  {
    assert v.Surroundings(z, x) == w.Surroundings(z, x);
  }

  ghost predicate Sees(w: World, v: World, z: ZoneId, x: Id) {
    x in v.entityAOI && v.entityAOI[x].visible == w.Surroundings(z, x)
  }

  lemma ObserveSeesMore(w: World, v: World, z: ZoneId, op: Op)
    requires Observed(w, v) && op.ObserveOne? && op.z == z && z in w.zones && op.x in w.zones[z].entities
    ensures Observed(w, Step(v, op)) && Sees(w, Step(v, op), z, op.x)
    ensures forall y :: Sees(w, v, z, y) ==> Sees(w, Step(v, op), z, y)
  {
    ObserveSees(w, v, z, op.x, op.spawns, op.despawns);
  }

  /** A pass changes visible sets and the log only; each entity visited so far sees its surroundings. */
  lemma {:induction false} PassSees(w: World, z: ZoneId, pass: seq<Op>, order: seq<Id>, k: nat)
    requires IsPass(w, z, pass, order) && k <= |pass|
    ensures Observed(w, Run(w, pass[..k]))
    ensures forall i :: 0 <= i < k ==> Sees(w, Run(w, pass[..k]), z, order[i])
    decreases k
  {
    if k == 0 {
      assert pass[..0] == [];
    } else {
      PassSees(w, z, pass, order, k - 1);
      assert pass[..k][..k - 1] == pass[..k - 1];
      assert order[k - 1] in order;
      ObserveSeesMore(w, Run(w, pass[..k - 1]), z, pass[k - 1]);
    }
  }

  /** `y` is live, in zone `z` and within the radius of point `c`. */
  ghost predicate NearPoint(w: World, z: ZoneId, c: Vec, y: Id) {
    && y in w.entities && y in w.entityZone && w.entityZone[y] == z
    && DistSq(w.Obj(w.entities[y]).position, c) <= AOI_RADIUS * AOI_RADIUS
  }

  ghost predicate Near(w: World, z: ZoneId, x: Id, y: Id)
    requires x in w.entities
  {
    NearPoint(w, z, w.Obj(w.entities[x]).position, y)
  }

  /** The others a client of zone `z` should see: live, in the same zone, within the radius. */
  ghost function ShouldSee(w: World, z: ZoneId, x: Id): set<Id>
    requires x in w.entities
  {
    AllNear(w, z, x) - {x}
  }

  ghost function AllNear(w: World, z: ZoneId, x: Id): set<Id>
    requires x in w.entities
  {
    set y | y in w.entities && Near(w, z, x, y)
  }

  lemma RangeIsNear(w: World, z: ZoneId, c: Vec, y: Id)
    requires ZonesOk(w) && Agree(w) && z in w.zones && Settled(w, z) && IsReal(y)
    ensures y in w.zones[z].grid.InRange(c, AOI_RADIUS) <==> NearPoint(w, z, c, y)
  {
    RangeOfSettled(w, z, c, AOI_RADIUS, y);
  }

  lemma SurroundingIsNear(w: World, z: ZoneId, x: Id, y: Id)
    requires ZonesOk(w) && Agree(w) && x in w.entities && LiveOk(w, x) && w.entityZone[x] == z && Settled(w, z)
    ensures y in w.Surroundings(z, x) && IsReal(y) <==> Near(w, z, x, y)
  {
    if y in w.entities { assert LiveOk(w, y); }
    if IsReal(y) { RangeIsNear(w, z, w.Obj(w.entities[x]).position, y); }
  }

  lemma SurroundingsAreRight(w: World, z: ZoneId, x: Id)
    requires ZonesOk(w) && Agree(w) && x in w.entities && LiveOk(w, x) && w.entityZone[x] == z && Settled(w, z)
    ensures Reals(w.Surroundings(z, x)) - {x} == ShouldSee(w, z, x)
  {
    SurroundingsAreNear(w, z, x);
  }

  lemma SurroundingsAreNear(w: World, z: ZoneId, x: Id)
    requires ZonesOk(w) && Agree(w) && x in w.entities && LiveOk(w, x) && w.entityZone[x] == z && Settled(w, z)
    ensures Reals(w.Surroundings(z, x)) == AllNear(w, z, x)
  {
    forall y ensures y in w.Surroundings(z, x) && IsReal(y) <==> Near(w, z, x, y) { SurroundingIsNear(w, z, x, y); }
  }

  /** Client `x`, replaying what was published to it since it was added, holds exactly what it
      should; and if none of its events was dropped, so does a client that only heard the events
      that reached the channel. */
  ghost predicate SeesExactly(w: World, z: ZoneId, x: Id) {
    && x in w.entities && x in w.joined && w.joined[x] <= |w.log|
    && var heard := w.log[w.joined[x]..];
    && Replay(Events(heard), x) == ShouldSee(w, z, x)
    && ((forall a :: a in heard && a.event.observer == x ==> a.accepted) ==>
          Replay(Accepted(heard), x) == ShouldSee(w, z, x))
  }

  lemma VisibleSeesExactly(w: World, z: ZoneId, x: Id)
    requires ZonesOk(w) && Agree(w) && x in w.entities && LiveOk(w, x) && w.entityZone[x] == z && Settled(w, z)
    requires ClientOk(w, x) && w.entityAOI[x].visible == w.Surroundings(z, x)
    ensures SeesExactly(w, z, x)
  {
    SurroundingsAreRight(w, z, x);
    var heard := w.log[w.joined[x]..];
    if forall a :: a in heard && a.event.observer == x ==> a.accepted { NothingMissed(heard, x); }
  }

  lemma PassEnds(w: World, z: ZoneId, pass: seq<Op>, order: seq<Id>, x: Id)
    requires IsPass(w, z, pass, order) && x in w.zones[z].entities
    ensures Observed(w, Run(w, pass)) && x in Run(w, pass).entityAOI
    ensures Run(w, pass).entityAOI[x].visible == w.Surroundings(z, x)
  {
    assert pass[..|pass|] == pass;
    PassSees(w, z, pass, order, |pass|);
    assert x in order;
  }

  lemma PassKeepsAll(w: World, z: ZoneId, pass: seq<Op>, order: seq<Id>)
    requires Inv(w) && AllSettled(w) && ClientsOk(w) && IsPass(w, z, pass, order) && AllEnabled(w, pass)
    ensures var w' := Run(w, pass); ZonesOk(w') && Agree(w') && AllSettled(w') && ClientsOk(w')
  {
    assert pass[..|pass|] == pass;
    PassKeeps(w, z, pass, order, |pass|);
  }

  /** One pass brings every client of its zone up to date. */
  lemma PassBringsUpToDate(w: World, z: ZoneId, pass: seq<Op>, order: seq<Id>, x: Id)
    requires Inv(w) && AllSettled(w) && ClientsOk(w) && IsPass(w, z, pass, order) && AllEnabled(w, pass)
    requires x in w.entities && x in w.entityZone && w.entityZone[x] == z
    ensures SeesExactly(Run(w, pass), z, x)
  {
    assert LiveOk(w, x);
    PassKeepsAll(w, z, pass, order);
    PassEnds(w, z, pass, order, x);
    PassTells(w, Run(w, pass), z, x);
  }

  lemma PassTells(w: World, w': World, z: ZoneId, x: Id)
    requires Observed(w, w') && ZonesOk(w') && Agree(w') && AllSettled(w') && ClientsOk(w')
    requires x in w.entities && x in w.entityZone && w.entityZone[x] == z
    requires x in w'.entityAOI && w'.entityAOI[x].visible == w.Surroundings(z, x)
    ensures SeesExactly(w', z, x)
  {
    assert LiveOk(w', x) && ClientOk(w', x) && Settled(w', z);
    assert w'.Surroundings(z, x) == w.Surroundings(z, x);
    VisibleSeesExactly(w', z, x);
  }

  /** The end-to-end theorem: after any disciplined run followed by the visibility pass of a zone,
      every client of that zone sees exactly what it should. */
  lemma ClientsSeeExactly(ops: seq<Op>, z: ZoneId, pass: seq<Op>, order: seq<Id>, x: Id)
    requires AllEnabled(Start(), ops) && AllDisciplined(Start(), ops)
    requires IsPass(Run(Start(), ops), z, pass, order) && AllEnabled(Run(Start(), ops), pass)
    requires x in Run(Start(), ops).entities && x in Run(Start(), ops).entityZone
    requires Run(Start(), ops).entityZone[x] == z
    ensures SeesExactly(Run(Run(Start(), ops), pass), z, x)
  {
    DisciplinedRun(ops);
    PassBringsUpToDate(Run(Start(), ops), z, pass, order, x);
  }

  lemma {:induction false} PassKeeps(w: World, z: ZoneId, pass: seq<Op>, order: seq<Id>, k: nat)
    requires Good(w) && IsPass(w, z, pass, order) && AllEnabled(w, pass) && k <= |pass|
    ensures Good(Run(w, pass[..k]))
    decreases k
  {
    if k == 0 {
      assert pass[..0] == [];
    } else {
      PassKeeps(w, z, pass, order, k - 1);
      assert pass[..k][..k - 1] == pass[..k - 1];
      assert Enabled(Run(w, pass[..k - 1]), pass[k - 1]);
      StepGood(Run(w, pass[..k - 1]), pass[k - 1]);
    }
  }

  // ---------- the event channel ----------

  /** Accepted events are delivered in order: those taken, then those waiting, and never too many. */
  ghost predicate ChannelOk(w: World) {
    Accepted(w.log) == w.taken + w.channel && |w.channel| <= EVENT_CAPACITY
  }

  lemma {:induction false} PublishChannel(w: World, evs: seq<Event>)
    requires ChannelOk(w)
    ensures ChannelOk(w.PublishAll(evs))
    decreases |evs|
  {
    if evs != [] {
      var w1, ev := w.PublishAll(evs[..|evs| - 1]), evs[|evs| - 1];
      PublishChannel(w, evs[..|evs| - 1]);
      var w' := w1.Publish(ev);
      assert w'.log[..|w1.log|] == w1.log;
      assert w1.taken + (w1.channel + [ev]) == (w1.taken + w1.channel) + [ev];
    }
  }

  lemma ChannelSame(w: World, w': World)
    requires ChannelOk(w) && w'.log == w.log && w'.channel == w.channel && w'.taken == w.taken
    ensures ChannelOk(w')
  {
  }

  lemma MoveChannel(w: World, x: Id, p: Vec)
    requires ChannelOk(w)
    ensures ChannelOk(MoveEntity(w, x, p))
  {
    if x in w.entities {
      var e := w.entities[x];
      var w1 := w.(objs := w.objs[e := w.Obj(e).(position := p)]);
      var w2 := if x in w.entityZone then w1.WithGrid(w.entityZone[x], w.GridOf(w.entityZone[x]).Move(x, p)) else w1;
      EnqueueChannel(w2, x, p);
    }
  }

  lemma EnqueueChannel(w: World, x: Id, p: Vec)
    requires ChannelOk(w)
    ensures ChannelOk(EnqueueMove(w, x, p))
  {
    if x in w.entityZone && w.entityZone[x] in w.zones {
      PublishChannel(w, MoveEvents(w.SpaceOf(x), x, p, Sorted(w.GridOf(w.entityZone[x]).InRange(p, AOI_RADIUS))));
    }
  }

  lemma ObserveChannel(w: World, z: ZoneId, x: Id, spawns: seq<Id>, despawns: seq<Id>)
    requires ChannelOk(w)
    ensures ChannelOk(Observe(w, z, x, spawns, despawns))
  {
    if z in w.zones && x in w.zones[z].entities {
      var space := w.Obj(w.zones[z].entities[x]).runtimeId;
      PublishChannel(w, DeltaEvents(w, space, x, w.Surroundings(z, x), spawns, despawns));
    }
  }

  lemma StepChannel(w: World, op: Op)
    requires ChannelOk(w)
    ensures ChannelOk(Step(w, op))
  {
    match op
    case MoveTo(x, p) => MoveChannel(w, x, p);
    case ObserveOne(z, x, spawns, despawns) => ObserveChannel(w, z, x, spawns, despawns);
    case Take => TakeChannel(w);
    case _ => NoPublish(w, op); ChannelSame(w, Step(w, op));
  }

  lemma TakeChannel(w: World)
    requires ChannelOk(w)
    ensures ChannelOk(TakeEvent(w))
  {
    if w.channel != [] { assert w.taken + w.channel == w.taken + [w.channel[0]] + w.channel[1..]; }
  }

  lemma NoPublish(w: World, op: Op)
    requires !op.MoveTo? && !op.ObserveOne? && !op.Take?
    ensures Step(w, op).log == w.log && Step(w, op).channel == w.channel && Step(w, op).taken == w.taken
  {
    match op
    case Assign(_) =>
    case Release(_) =>
    case Add(_, _) =>
    case Remove(_) =>
    case _ =>
  }

  /** In every run the consumer has received, in order and without repetition, a prefix of the
      accepted events; the rest waits in the channel, which never exceeds its capacity. */
  lemma {:induction false} EventsDeliveredInOrder(ops: seq<Op>)
    ensures var w := Run(Start(), ops);
            Accepted(w.log) == w.taken + w.channel && |w.channel| <= EVENT_CAPACITY
    decreases |ops|
  {
    if ops != [] {
      EventsDeliveredInOrder(ops[..|ops| - 1]);
      StepChannel(Run(Start(), ops[..|ops| - 1]), ops[|ops| - 1]);
    }
  }
}
