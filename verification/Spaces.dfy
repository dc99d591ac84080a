/** Space isolation over whole runs. */
module Spaces {
  import opened Ids
  import opened Grids
  import opened Objects
  import opened Worlds
  import opened Invariants
  import opened Visibility
  import opened Clients

  /** The Space a zone enforces; empty if it enforces none. */
  function ZoneSpace(w: World, z: ZoneId): string {
    if z in w.zones && w.zones[z].zone.Some? then w.zones[z].zone.value.runtimeId else ""
  }

  // ---------- live entities carry their zone's Space ----------

  ghost predicate CarriesSpace(w: World, x: Id)
    requires x in w.entities
  {
    x in w.entityZone && (ZoneSpace(w, w.entityZone[x]) != "" ==> w.SpaceOf(x) == ZoneSpace(w, w.entityZone[x]))
  }

  ghost predicate AllCarry(w: World) {
    forall x :: x in w.entities ==> CarriesSpace(w, x)
  }

  lemma AddCarries(w: World, e: Entity, v: EntityVal)
    requires Agree(w) && AllCarry(w) && Enabled(w, Add(e, v))
    ensures AllCarry(AddEntity(w, e, v))
  {
    var w' := AddEntity(w, e, v);
    forall x | x in w'.entities ensures CarriesSpace(w', x) {
      if x != v.id { AddOtherCarries(w, e, v, x); }
    }
  }

  lemma AddOtherCarries(w: World, e: Entity, v: EntityVal, x: Id)
    requires x in w.entities && x != v.id && LiveOk(w, x) && CarriesSpace(w, x) && Enabled(w, Add(e, v))
    ensures CarriesSpace(AddEntity(w, e, v), x)
  {
  }

  // ---------- steps other than Add only take away ----------

  ghost predicate ZonesShrink(w: World, w': World) {
    forall z :: z in w'.zones ==>
      if z in w.zones then
        w'.zones[z].zone == w.zones[z].zone && w'.zones[z].entities.Keys <= w.zones[z].entities.Keys
        && forall x :: x in w'.zones[z].entities ==> w'.zones[z].entities[x] == w.zones[z].entities[x]
      else w'.zones[z].entities == map[]
  }

  ghost predicate EntitiesShrink(w: World, w': World) {
    forall x :: x in w'.entities ==>
      && x in w.entities && w'.entities[x] == w.entities[x]
      && (x in w.entityZone ==> x in w'.entityZone && w'.entityZone[x] == w.entityZone[x] && (w.entityZone[x] in w.zones ==> w.entityZone[x] in w'.zones))
  }

  ghost predicate SpacesStay(w: World, w': World) {
    forall e :: e in w.objs ==> e in w'.objs && w'.objs[e].runtimeId == w.objs[e].runtimeId
  }

  ghost predicate Shrinks(w: World, w': World) {
    ZonesShrink(w, w') && EntitiesShrink(w, w') && SpacesStay(w, w')
  }

  lemma SameShrinks(w: World, w': World)
    requires w'.zones.Keys == w.zones.Keys && w'.entities == w.entities && w'.entityZone == w.entityZone && w'.objs == w.objs
    requires forall z :: z in w.zones ==> w'.zones[z].zone == w.zones[z].zone && w'.zones[z].entities == w.zones[z].entities
    ensures Shrinks(w, w')
  {
  }

  lemma ReleaseShrinks(w: World, z: ZoneId)
    ensures Shrinks(w, ReleaseZone(w, z))
  {
  }

  lemma RemoveShrinks(w: World, x: Id)
    ensures Shrinks(w, RemoveEntity(w, x))
  {
    if x in w.entityZone { RemoveZonesShrink(w, x); }
  }

  lemma RemoveZonesShrink(w: World, x: Id)
    requires x in w.entityZone
    ensures ZonesShrink(w, RemoveEntity(w, x)) && RemoveEntity(w, x).zones.Keys == w.zones.Keys
  {
    var z := w.entityZone[x];
    if z in w.zones { ZoneShrinks(w, RemoveEntity(w, x), z, w.zones[z].entities - {x}, w.zones[z].grid.Leave(x)); }
  }

  lemma ZoneShrinks(w: World, w': World, z: ZoneId, entities: map<Id, Entity>, grid: Grid)
    requires z in w.zones && w'.zones == w.zones[z := w.zones[z].(entities := entities, grid := grid)]
    requires entities.Keys <= w.zones[z].entities.Keys && forall x :: x in entities ==> entities[x] == w.zones[z].entities[x]
    ensures ZonesShrink(w, w') && w'.zones.Keys == w.zones.Keys
  {
  }

  lemma SweepShrinks(w: World, x: Id, now: int)
    ensures Shrinks(w, SweepSession(w, x, now))
  {
    var w' := SweepSession(w, x, now);
    assert w'.zones.Keys == w.zones.Keys;
    assert forall z :: z in w.zones ==> w'.zones[z].zone == w.zones[z].zone && w'.zones[z].entities == w.zones[z].entities;
  }

  lemma MoveShrinks(w: World, x: Id, p: Vec)
    requires x in w.entities ==> w.entities[x] in w.objs
    ensures Shrinks(w, MoveEntity(w, x, p))
  {
    var w' := MoveEntity(w, x, p);
    assert ZonesShrink(w, w') by { MoveZonesShrink(w, x, p); }
    assert EntitiesShrink(w, w') by { MoveZonesShrink(w, x, p); }
  }

  lemma MoveZonesShrink(w: World, x: Id, p: Vec)
    ensures ZonesShrink(w, MoveEntity(w, x, p)) && MoveEntity(w, x, p).zones.Keys == w.zones.Keys
  {
  }

  lemma AssignShrinks(w: World, zone: Zone)
    ensures Shrinks(w, AssignZone(w, zone))
  {
  }

  lemma StepShrinks(w: World, op: Op)
    requires Agree(w) && !op.Add?
    ensures Shrinks(w, Step(w, op))
  {
    match op
    case Assign(zone) => AssignShrinks(w, zone);
    case Release(z) => ReleaseShrinks(w, z);
    case Remove(x) => RemoveShrinks(w, x);
    case SweepOne(x, now) => SweepShrinks(w, x, now);
    case MoveTo(x, p) => if x in w.entities { assert LiveOk(w, x); } MoveShrinks(w, x, p);
    case _ => QuietShrinks(w, op);
  }

  lemma QuietShrinks(w: World, op: Op)
    requires !op.Add? && !op.Assign? && !op.Release? && !op.Remove? && !op.SweepOne? && !op.MoveTo?
    ensures Shrinks(w, Step(w, op))
  {
    match op
    case DetectOne(z, x, now) => SameShrinks(w, Detect(w, z, x, now));
    case ExpireOne(gid, now) => SameShrinks(w, ExpireGhost(w, gid, now));
    case _ => GhostShrinks(w, op);
  }

  lemma GhostShrinks(w: World, op: Op)
    requires !op.Add? && !op.Assign? && !op.Release? && !op.Remove? && !op.SweepOne? && !op.MoveTo? && !op.DetectOne? && !op.ExpireOne?
    ensures Shrinks(w, Step(w, op))
  {
    match op
    case Report(z, n, x, p, now) => SameShrinks(w, ReportGhost(w, z, n, x, p, now));
    case Timeout(z, gid, now) => SameShrinks(w, TimeoutGhost(w, z, gid, now));
    case _ => SameShrinks(w, Step(w, op));
  }

  lemma ShrinkCarries(w: World, w': World)
    requires Agree(w) && AllCarry(w) && Shrinks(w, w')
    ensures AllCarry(w')
  {
    forall x | x in w'.entities ensures CarriesSpace(w', x) {
      assert LiveOk(w, x) && CarriesSpace(w, x);
    }
  }

  /** In every run each live entity of a zone with a Space carries that Space. */
  lemma {:induction false} SpaceCarriedInEveryRun(ops: seq<Op>)
    requires AllEnabled(Start(), ops)
    ensures AllCarry(Run(Start(), ops))
    decreases |ops|
  {
    if ops != [] {
      var front, op := ops[..|ops| - 1], ops[|ops| - 1];
      FrontEnabled(Start(), ops);
      SpaceCarriedInEveryRun(front);
      RunKeeps(Start(), front);
      var w := Run(Start(), front);
      if op.Add? { AddCarries(w, op.e, op.v); } else { StepShrinks(w, op); ShrinkCarries(w, Step(w, op)); }
    }
  }

  // ---------- every listed entity carries its zone's Space ----------

  /** New objects only: the caller never adds an object the server already holds. */
  ghost predicate FreshObjects(w: World, op: Op) {
    op.Add? ==> op.e !in w.objs
  }

  ghost predicate AllFresh(w: World, ops: seq<Op>) {
    forall i :: 0 <= i < |ops| ==> FreshObjects(Run(w, ops[..i]), ops[i])
  }

  ghost predicate ListedCarries(w: World, z: ZoneId, x: Id)
    requires z in w.zones && x in w.zones[z].entities
  {
    ZoneSpace(w, z) != "" ==> w.Obj(w.zones[z].entities[x]).runtimeId == ZoneSpace(w, z)
  }

  ghost predicate ListedCarry(w: World) {
    forall z, x :: z in w.zones && x in w.zones[z].entities ==> ListedCarries(w, z, x)
  }

  lemma AddListed(w: World, e: Entity, v: EntityVal)
    requires Named(w) && ListedCarry(w) && e !in w.objs
    ensures ListedCarry(AddEntity(w, e, v))
  {
    var w' := AddEntity(w, e, v);
    forall z, x | z in w'.zones && x in w'.zones[z].entities ensures ListedCarries(w', z, x) {
      if z in w.zones && x in w.zones[z].entities { assert ListedCarries(w, z, x); }
    }
  }

  lemma ShrinkListed(w: World, w': World)
    requires Named(w) && ListedCarry(w) && Shrinks(w, w')
    ensures ListedCarry(w')
  {
    forall z, x | z in w'.zones && x in w'.zones[z].entities ensures ListedCarries(w', z, x) {
      assert z in w.zones && x in w.zones[z].entities;
      assert ListedCarries(w, z, x);
    }
  }

  lemma FrontFresh(w: World, ops: seq<Op>)
    requires AllFresh(w, ops) && ops != []
    ensures AllFresh(w, ops[..|ops| - 1]) && FreshObjects(Run(w, ops[..|ops| - 1]), ops[|ops| - 1])
  {
    var front := ops[..|ops| - 1];
    assert forall i :: 0 <= i < |front| ==> front[i] == ops[i] && front[..i] == ops[..i];
  }

  lemma {:induction false} ListedCarryInEveryRun(ops: seq<Op>)
    requires AllEnabled(Start(), ops) && AllFresh(Start(), ops)
    ensures ListedCarry(Run(Start(), ops))
    decreases |ops|
  {
    if ops != [] {
      var front, op := ops[..|ops| - 1], ops[|ops| - 1];
      FrontEnabled(Start(), ops);
      FrontFresh(Start(), ops);
      ListedCarryInEveryRun(front);
      RunKeeps(Start(), front);
      var w := Run(Start(), front);
      if op.Add? { AddListed(w, op.e, op.v); } else { StepShrinks(w, op); ShrinkListed(w, Step(w, op)); }
    }
  }

  /** What EntitiesNearGrid may return for a Space. */
  ghost predicate NearGrid(w: World, space: string, gridX: int, gridY: int, radius: real, e: Entity) {
    exists z, x :: z in w.zones && x in w.zones[z].entities && w.zones[z].entities[x] == e
                   && NearZone(w, z, space, gridX, gridY, radius, e)
  }

  ghost predicate NearZone(w: World, z: ZoneId, space: string, gridX: int, gridY: int, radius: real, e: Entity)
    requires z in w.zones
  {
    w.zones[z].zone.Some? && var zone := w.zones[z].zone.value;
    && zone.runtimeId == space && zone.gridX == gridX && zone.gridY == gridY
    && DistSq(w.Obj(e).position, ZoneCenter(zone)) <= radius * radius
  }

  function ZoneCenter(zone: Zone): Vec {
    var size := if zone.size <= 0.0 then CELL_SIZE else zone.size;
    Vec(zone.gridX as real * size + size / 2.0, 0.0, zone.gridY as real * size + size / 2.0)
  }

  /** A grid query for a Space answers with entities of that Space only. */
  lemma NearGridStaysInSpace(ops: seq<Op>, space: string, gridX: int, gridY: int, radius: real, e: Entity)
    requires AllEnabled(Start(), ops) && AllFresh(Start(), ops) && space != ""
    requires NearGrid(Run(Start(), ops), space, gridX, gridY, radius, e)
    ensures Run(Start(), ops).Obj(e).runtimeId == space
  {
    ListedCarryInEveryRun(ops);
    var w := Run(Start(), ops);
    var z, x :| z in w.zones && x in w.zones[z].entities && w.zones[z].entities[x] == e
                && NearZone(w, z, space, gridX, gridY, radius, e);
    assert ListedCarries(w, z, x);
  }

  // ---------- Spawn events ----------

  /** The subjects of the spawn events of one observation. */
  lemma {:induction false} SpawnSubjects(w: World, space: string, x: Id, order: seq<Id>)
    ensures forall ev :: ev in SpawnEvents(w, space, x, order) ==>
              ev.kind.Spawn? && ev.space == space && ev.observer == x && ev.subject in order && ev.subject in w.entities
    ensures forall y :: y in order && y !in w.Visible(x) && y != x && y in w.entities ==>
              Event(Spawn, space, x, y, w.Obj(w.entities[y]).typ, w.Obj(w.entities[y]).position)
              in SpawnEvents(w, space, x, order)
    decreases |order|
  {
    if order != [] {
      SpawnSubjects(w, space, x, order[..|order| - 1]);
      assert order == order[..|order| - 1] + [order[|order| - 1]];
    }
  }

  lemma {:induction false} DespawnKinds(current: set<Id>, space: string, x: Id, order: seq<Id>)
    ensures forall ev :: ev in DespawnEvents(current, space, x, order) ==> ev.kind.Despawn?
    decreases |order|
  {
    if order != [] { DespawnKinds(current, space, x, order[..|order| - 1]); }
  }

  /** `ev` is a Spawn published by the observation of `x` in zone `z`. */
  ghost predicate SpawnedBy(w: World, z: ZoneId, x: Id, spawns: seq<Id>, despawns: seq<Id>, ev: Event) {
    ev.kind.Spawn? && exists i :: |w.log| <= i < |Observe(w, z, x, spawns, despawns).log|
                                  && Observe(w, z, x, spawns, despawns).log[i].event == ev
  }

  lemma SpawnedByObserver(w: World, z: ZoneId, x: Id, spawns: seq<Id>, despawns: seq<Id>, ev: Event)
    requires z in w.zones && x in w.zones[z].entities && SpawnedBy(w, z, x, spawns, despawns, ev)
    ensures ev.space == w.Obj(w.zones[z].entities[x]).runtimeId && ev.observer == x
    ensures ev.subject in spawns && ev.subject in w.entities
  {
    var space, current := w.Obj(w.zones[z].entities[x]).runtimeId, w.Surroundings(z, x);
    ObserveLog(w, z, x, spawns, despawns);
    var evs := DeltaEvents(w, space, x, current, spawns, despawns);
    SpawnSubjects(w, space, x, spawns);
    DespawnKinds(current, space, x, despawns);
    var i :| |w.log| <= i < |Observe(w, z, x, spawns, despawns).log|
             && Observe(w, z, x, spawns, despawns).log[i].event == ev;
    assert Observe(w, z, x, spawns, despawns).log[|w.log| + (i - |w.log|)].event == evs[i - |w.log|];
  }

  /** In a settled zone with a Space, subject and event of every Spawn belong to that Space. */
  lemma SpawnHasZoneSpace(w: World, z: ZoneId, x: Id, spawns: seq<Id>, despawns: seq<Id>, ev: Event)
    requires ZonesOk(w) && Agree(w) && z in w.zones && Settled(w, z) && x in w.zones[z].entities
    requires AllCarry(w) && ListedCarries(w, z, x) && ZoneSpace(w, z) != ""
    requires Enabled(w, ObserveOne(z, x, spawns, despawns)) && SpawnedBy(w, z, x, spawns, despawns, ev)
    ensures ev.observer == x && ev.space == ZoneSpace(w, z)
    ensures ev.subject in w.entities && w.entityZone[ev.subject] == z && w.SpaceOf(ev.subject) == ZoneSpace(w, z)
  {
    SpawnedByObserver(w, z, x, spawns, despawns, ev);
    var y := ev.subject;
    assert LiveOk(w, y) && CarriesSpace(w, y);
    RangeOfSettled(w, z, w.Obj(w.zones[z].entities[x]).position, AOI_RADIUS, y);
  }

  /** Over every disciplined run with fresh objects: a Spawn published for a zone with a Space names
      that Space and a subject of that Space. */
  lemma SpawnsStayInSpace(ops: seq<Op>, z: ZoneId, x: Id, spawns: seq<Id>, despawns: seq<Id>, ev: Event)
    requires AllEnabled(Start(), ops) && AllDisciplined(Start(), ops) && AllFresh(Start(), ops)
    requires var w := Run(Start(), ops);
             && z in w.zones && x in w.zones[z].entities && ZoneSpace(w, z) != ""
             && Enabled(w, ObserveOne(z, x, spawns, despawns)) && SpawnedBy(w, z, x, spawns, despawns, ev)
    ensures var w := Run(Start(), ops);
            ev.observer == x && ev.space == ZoneSpace(w, z) && w.SpaceOf(ev.subject) == ZoneSpace(w, z)
  {
    var w := Run(Start(), ops);
    DisciplinedRun(ops);
    SpaceCarriedInEveryRun(ops);
    ListedCarryInEveryRun(ops);
    assert ListedCarries(w, z, x) && Settled(w, z);
    SpawnHasZoneSpace(w, z, x, spawns, despawns, ev);
  }

  /** In a zone with a Space a Spawn joins one Space if and only if its observer carries the zone's. */
  lemma SpawnJoinsIff(ops: seq<Op>, z: ZoneId, x: Id, spawns: seq<Id>, despawns: seq<Id>, ev: Event)
    requires AllEnabled(Start(), ops) && AllDisciplined(Start(), ops) && AllFresh(Start(), ops)
    requires var w := Run(Start(), ops);
             && z in w.zones && x in w.zones[z].entities && ZoneSpace(w, z) != ""
             && Enabled(w, ObserveOne(z, x, spawns, despawns)) && SpawnedBy(w, z, x, spawns, despawns, ev)
    ensures var w := Run(Start(), ops);
            w.SpaceOf(ev.observer) == w.SpaceOf(ev.subject) <==> w.SpaceOf(x) == ZoneSpace(w, z)
  {
    SpawnsStayInSpace(ops, z, x, spawns, despawns, ev);
  }

  // ---------- when observers carry the Space of every zone that lists them ----------

  /** The Space an added entity ends up with. */
  function NewSpace(w: World, v: EntityVal): string {
    if ZoneSpace(w, ZoneFor(v)) != "" then ZoneSpace(w, ZoneFor(v)) else v.runtimeId
  }

  lemma AddedSpaces(w: World, e: Entity, v: EntityVal, x: Id)
    requires e !in w.objs && (x in w.entities ==> w.entities[x] in w.objs)
    ensures AddEntity(w, e, v).SpaceOf(v.id) == NewSpace(w, v)
    ensures x != v.id ==> AddEntity(w, e, v).SpaceOf(x) == w.SpaceOf(x)
  {
  }

  lemma AddedListing(w: World, e: Entity, v: EntityVal, z: ZoneId, x: Id)
    ensures var w' := AddEntity(w, e, v);
            && (z in w'.zones <==> z in w.zones || z == ZoneFor(v))
            && ZoneSpace(w', z) == ZoneSpace(w, z)
            && (z in w'.zones ==> (x in w'.zones[z].entities <==> (z in w.zones && x in w.zones[z].entities) || (z == ZoneFor(v) && x == v.id)))
            && (x in w'.entities <==> x in w.entities || x == v.id)
            && (x in w'.entityZone <==> x in w.entityZone || x == v.id)
            && (x in w'.entityZone ==> w'.entityZone[x] == if x == v.id then ZoneFor(v) else w.entityZone[x])
  {
  }

  ghost predicate CarriesOf(w: World, z: ZoneId, x: Id) {
    z in w.zones && x in w.zones[z].entities && x in w.entities && ZoneSpace(w, z) != "" ==> w.SpaceOf(x) == ZoneSpace(w, z)
  }

  /** A live id carries the Space of every zone with a Space that lists it, its own or another. */
  ghost predicate Faithful(w: World) {
    forall z, x :: CarriesOf(w, z, x)
  }

  /** No zone of another Space still lists the id that is added. */
  ghost predicate NoForeign(w: World, op: Op) {
    op.Add? ==> forall z :: z in w.zones && op.v.id in w.zones[z].entities && ZoneSpace(w, z) != "" ==> ZoneSpace(w, z) == NewSpace(w, op.v)
  }

  ghost predicate NeverForeign(w: World, ops: seq<Op>) {
    ops == [] || (NeverForeign(w, ops[..|ops| - 1]) && NoForeign(Run(w, ops[..|ops| - 1]), ops[|ops| - 1]))
  }

  lemma AddCarriesOf(w: World, e: Entity, v: EntityVal, z: ZoneId, x: Id)
    requires Agree(w) && CarriesOf(w, z, x) && e !in w.objs
    ensures x != v.id ==> CarriesOf(AddEntity(w, e, v), z, x)
    ensures CarriesOf(AddEntity(w, e, v), z, v.id)
       <==> (z in w.zones && v.id in w.zones[z].entities && ZoneSpace(w, z) != "" ==> ZoneSpace(w, z) == NewSpace(w, v))
  {
    if x in w.entities { assert LiveOk(w, x); }
    AddedSpaces(w, e, v, x);
    AddedListing(w, e, v, z, x);
    AddedListing(w, e, v, z, v.id);
  }

  lemma AddFaithful(w: World, e: Entity, v: EntityVal)
    requires Agree(w) && Faithful(w) && e !in w.objs && NoForeign(w, Add(e, v))
    ensures Faithful(AddEntity(w, e, v))
  {
    forall z, x ensures CarriesOf(AddEntity(w, e, v), z, x) {
      assert CarriesOf(w, z, x);
      AddCarriesOf(w, e, v, z, x);
    }
  }

  lemma ForeignBreaks(w: World, e: Entity, v: EntityVal)
    requires Agree(w) && Faithful(w) && e !in w.objs && !NoForeign(w, Add(e, v))
    ensures !Faithful(AddEntity(w, e, v))
  {
    var z :| z in w.zones && v.id in w.zones[z].entities && ZoneSpace(w, z) != "" && ZoneSpace(w, z) != NewSpace(w, v);
    assert CarriesOf(w, z, v.id);
    AddCarriesOf(w, e, v, z, v.id);
    assert !CarriesOf(AddEntity(w, e, v), z, v.id);
  }

  lemma ShrinkFaithful(w: World, w': World)
    requires Agree(w) && Faithful(w) && Shrinks(w, w')
    ensures Faithful(w')
  {
    forall z, x ensures CarriesOf(w', z, x) {
      assert CarriesOf(w, z, x);
      if x in w.entities { assert LiveOk(w, x); }
    }
  }

  lemma StepFaithfulIff(w: World, op: Op)
    requires Inv(w) && Faithful(w) && FreshObjects(w, op)
    ensures Faithful(Step(w, op)) <==> NoForeign(w, op)
  {
    if !op.Add? {
      StepShrinks(w, op);
      ShrinkFaithful(w, Step(w, op));
    } else if NoForeign(w, op) {
      AddFaithful(w, op.e, op.v);
    } else {
      ForeignBreaks(w, op.e, op.v);
    }
  }

  /** At every point of the run. */
  ghost predicate AlwaysFaithful(w: World, ops: seq<Op>) {
    Faithful(Run(w, ops)) && (ops == [] || AlwaysFaithful(w, ops[..|ops| - 1]))
  }

  /** Over runs with fresh objects: live ids carry the Space of every zone with a Space that lists
      them, at every point of the run, if and only if no id is added while a zone of another Space
      still lists it. */
  lemma {:induction false} FaithfulInEveryRunIff(ops: seq<Op>)
    requires AllEnabled(Start(), ops) && AllFresh(Start(), ops)
    ensures AlwaysFaithful(Start(), ops) <==> NeverForeign(Start(), ops)
    decreases |ops|
  {
    if ops != [] {
      var front := ops[..|ops| - 1];
      FrontEnabled(Start(), ops);
      FrontFresh(Start(), ops);
      FaithfulInEveryRunIff(front);
      RunKeeps(Start(), front);
      if AlwaysFaithful(Start(), front) { StepFaithfulIff(Run(Start(), front), ops[|ops| - 1]); }
    }
  }

  // ---------- isolation, with and without a Space ----------

  ghost predicate MeetsOwn(w: World, z: ZoneId, x: Id, y: Id) {
    z in w.zones && x in w.zones[z].entities && x in w.entities && y in w.entities && y in w.entityZone && w.entityZone[y] == z
    ==> w.SpaceOf(x) == w.SpaceOf(y)
  }

  /** Whoever a zone lets observe has the Space of everyone who lives there. */
  ghost predicate Isolated(w: World) {
    forall z, x, y :: MeetsOwn(w, z, x, y)
  }

  /** An added id gets the Space of every live id its zone lists, and of every live entity of a zone
      that still lists it. */
  ghost predicate Welcome(w: World, op: Op) {
    op.Add? ==>
      && (forall x :: x != op.v.id && x in w.entities && ZoneFor(op.v) in w.zones && x in w.zones[ZoneFor(op.v)].entities ==>
            w.SpaceOf(x) == NewSpace(w, op.v))
      && (forall z, y :: z in w.zones && op.v.id in w.zones[z].entities && y != op.v.id && y in w.entities && y in w.entityZone && w.entityZone[y] == z ==>
            w.SpaceOf(y) == NewSpace(w, op.v))
  }

  ghost predicate AllWelcome(w: World, ops: seq<Op>) {
    ops == [] || (AllWelcome(w, ops[..|ops| - 1]) && Welcome(Run(w, ops[..|ops| - 1]), ops[|ops| - 1]))
  }

  lemma AddMeets(w: World, e: Entity, v: EntityVal, z: ZoneId, x: Id, y: Id)
    requires Agree(w) && MeetsOwn(w, z, x, y) && e !in w.objs
    ensures x != v.id && y != v.id ==> MeetsOwn(AddEntity(w, e, v), z, x, y)
    ensures x != v.id && x in w.entities && ZoneFor(v) in w.zones && x in w.zones[ZoneFor(v)].entities ==>
              (MeetsOwn(AddEntity(w, e, v), ZoneFor(v), x, v.id) <==> w.SpaceOf(x) == NewSpace(w, v))
  {
    if x in w.entities { assert LiveOk(w, x); }
    if y in w.entities { assert LiveOk(w, y); }
    AddedSpaces(w, e, v, x);
    AddedSpaces(w, e, v, y);
    AddedListing(w, e, v, z, x);
    AddedListing(w, e, v, z, y);
    AddedListing(w, e, v, ZoneFor(v), x);
    AddedListing(w, e, v, ZoneFor(v), v.id);
  }

  lemma AddObserves(w: World, e: Entity, v: EntityVal, z: ZoneId, y: Id)
    requires Agree(w) && e !in w.objs && y != v.id && y in w.entities && w.entityZone[y] == z
    ensures MeetsOwn(AddEntity(w, e, v), z, v.id, y)
       <==> (z in w.zones && v.id in w.zones[z].entities) || z == ZoneFor(v) ==> w.SpaceOf(y) == NewSpace(w, v)
  {
    assert LiveOk(w, y);
    AddedSpaces(w, e, v, y);
    AddedListing(w, e, v, z, y);
    AddedListing(w, e, v, z, v.id);
  }

  lemma AddIsolated(w: World, e: Entity, v: EntityVal)
    requires Agree(w) && Isolated(w) && e !in w.objs && Welcome(w, Add(e, v))
    ensures Isolated(AddEntity(w, e, v))
  {
    var w' := AddEntity(w, e, v);
    forall z, x, y ensures MeetsOwn(w', z, x, y) {
      assert MeetsOwn(w, z, x, y);
      AddMeets(w, e, v, z, x, y);
      AddedListing(w, e, v, z, x);
      AddedListing(w, e, v, z, y);
      if x == v.id && y != v.id && y in w.entities && w.entityZone[y] == z {
        assert LiveOk(w, y);
        AddObserves(w, e, v, z, y);
      }
    }
  }

  lemma UnwelcomeMixes(w: World, e: Entity, v: EntityVal)
    requires Agree(w) && e !in w.objs && !Welcome(w, Add(e, v))
    ensures !Isolated(AddEntity(w, e, v))
  {
    var w', z := AddEntity(w, e, v), ZoneFor(v);
    if x :| x != v.id && x in w.entities && z in w.zones && x in w.zones[z].entities && w.SpaceOf(x) != NewSpace(w, v) {
      assert LiveOk(w, x);
      AddedSpaces(w, e, v, x);
      AddedListing(w, e, v, z, x);
      AddedListing(w, e, v, z, v.id);
      assert !MeetsOwn(w', z, x, v.id);
    } else {
      var a, y :| a in w.zones && v.id in w.zones[a].entities && y != v.id && y in w.entities && y in w.entityZone && w.entityZone[y] == a
                  && w.SpaceOf(y) != NewSpace(w, v);
      AddObserves(w, e, v, a, y);
      assert !MeetsOwn(w', a, v.id, y);
    }
  }

  lemma ShrinkIsolated(w: World, w': World)
    requires Agree(w) && Isolated(w) && Shrinks(w, w')
    ensures Isolated(w')
  {
    forall z, x, y ensures MeetsOwn(w', z, x, y) {
      assert MeetsOwn(w, z, x, y);
      if x in w.entities { assert LiveOk(w, x); }
      if y in w.entities { assert LiveOk(w, y); }
    }
  }

  lemma StepIsolatedIff(w: World, op: Op)
    requires Inv(w) && Isolated(w) && FreshObjects(w, op)
    ensures Isolated(Step(w, op)) <==> Welcome(w, op)
  {
    if !op.Add? {
      StepShrinks(w, op);
      ShrinkIsolated(w, Step(w, op));
    } else if Welcome(w, op) {
      AddIsolated(w, op.e, op.v);
    } else {
      UnwelcomeMixes(w, op.e, op.v);
    }
  }

  /** At every point of the run. */
  ghost predicate AlwaysIsolated(w: World, ops: seq<Op>) {
    Isolated(Run(w, ops)) && (ops == [] || AlwaysIsolated(w, ops[..|ops| - 1]))
  }

  /** Over runs with fresh objects the server is isolated at every point if and only if every addition
      was welcome: a check on the state before each addition, for zones with a Space and without. */
  lemma {:induction false} IsolatedInEveryRunIff(ops: seq<Op>)
    requires AllEnabled(Start(), ops) && AllFresh(Start(), ops)
    ensures AlwaysIsolated(Start(), ops) <==> AllWelcome(Start(), ops)
    decreases |ops|
  {
    if ops != [] {
      var front := ops[..|ops| - 1];
      FrontEnabled(Start(), ops);
      FrontFresh(Start(), ops);
      IsolatedInEveryRunIff(front);
      RunKeeps(Start(), front);
      if AlwaysIsolated(Start(), front) { StepIsolatedIff(Run(Start(), front), ops[|ops| - 1]); }
    }
  }

  lemma SpawnSubjectLivesHere(w: World, z: ZoneId, x: Id, spawns: seq<Id>, despawns: seq<Id>, ev: Event)
    requires ZonesOk(w) && Agree(w) && z in w.zones && Settled(w, z) && x in w.zones[z].entities
    requires Enabled(w, ObserveOne(z, x, spawns, despawns)) && SpawnedBy(w, z, x, spawns, despawns, ev)
    ensures ev.observer == x && ev.subject in w.entities && w.entityZone[ev.subject] == z
  {
    SpawnedByObserver(w, z, x, spawns, despawns, ev);
    assert LiveOk(w, ev.subject);
    RangeOfSettled(w, z, w.Obj(w.zones[z].entities[x]).position, AOI_RADIUS, ev.subject);
  }

  /** If every addition was welcome, every Spawn for a live observer joins an observer and a subject
      of one Space, whether the zone has a Space or not. */
  lemma SpawnsJoinOneSpace(ops: seq<Op>, z: ZoneId, x: Id, spawns: seq<Id>, despawns: seq<Id>, ev: Event)
    requires AllEnabled(Start(), ops) && AllDisciplined(Start(), ops) && AllFresh(Start(), ops) && AllWelcome(Start(), ops)
    requires var w := Run(Start(), ops);
             && z in w.zones && x in w.zones[z].entities && x in w.entities
             && Enabled(w, ObserveOne(z, x, spawns, despawns)) && SpawnedBy(w, z, x, spawns, despawns, ev)
    ensures var w := Run(Start(), ops);
            ev.observer == x && w.SpaceOf(ev.observer) == w.SpaceOf(ev.subject)
  {
    var w := Run(Start(), ops);
    DisciplinedRun(ops);
    IsolatedInEveryRunIff(ops);
    assert Settled(w, z);
    SpawnSubjectLivesHere(w, z, x, spawns, despawns, ev);
    assert MeetsOwn(w, z, x, ev.subject);
  }

  /** And no weaker condition will do.  Where a live observer meets a resident of another Space, either
      it has been told of the resident already, or ... */
  lemma MixedZoneTold(w: World, z: ZoneId, x: Id, y: Id)
    requires Good(w) && !MeetsOwn(w, z, x, y) && y in w.Visible(x)
    ensures x in w.joined && w.joined[x] <= |w.log| && y in Replay(Events(w.log[w.joined[x]..]), x)
  {
    assert LiveOk(w, y);
    VisibleIsTold(w, x, y);
  }

  lemma VisibleIsTold(w: World, x: Id, y: Id)
    requires ClientsOk(w) && x in w.entities && y in w.Visible(x) && IsReal(y) && y != x
    ensures x in w.joined && w.joined[x] <= |w.log| && y in Replay(Events(w.log[w.joined[x]..]), x)
  {
    assert ClientOk(w, x);
  }

  /** ... it is told as soon as the resident comes near. */
  lemma MixedZoneLeaks(w: World, z: ZoneId, x: Id, y: Id, spawns: seq<Id>, despawns: seq<Id>)
    requires Inv(w) && AllSettled(w) && !MeetsOwn(w, z, x, y) && y !in w.Visible(x)
    requires Enabled(MoveEntity(w, y, w.Obj(w.zones[z].entities[x]).position), ObserveOne(z, x, spawns, despawns))
    ensures var w1 := MoveEntity(w, y, w.Obj(w.zones[z].entities[x]).position);
            Announces(w1, z, x, y, spawns, despawns) && w1.SpaceOf(x) != w1.SpaceOf(y)
  {
    ComesNear(w, z, x, y);
    NewNeighbourSeen(MoveEntity(w, y, w.Obj(w.zones[z].entities[x]).position), z, x, y, spawns, despawns);
  }

  lemma ComesNear(w: World, z: ZoneId, x: Id, y: Id)
    requires Inv(w) && AllSettled(w) && z in w.zones && x in w.zones[z].entities && x in w.entities && x != y
    requires y in w.entities && y in w.entityZone && w.entityZone[y] == z && y !in w.Visible(x)
    ensures var w1 := MoveEntity(w, y, w.Obj(w.zones[z].entities[x]).position);
            Unseen(w1, z, x, y) && w1.SpaceOf(x) == w.SpaceOf(x) && w1.SpaceOf(y) == w.SpaceOf(y)
  {
    var p := w.Obj(w.zones[z].entities[x]).position;
    MoveKeepsInv(w, y, p);
    MoveSettled(w, y, p);
    MovedThere(w, z, x, y, p);
    BundleUnseen(MoveEntity(w, y, p), z, x, y);
  }

  lemma MovedThere(w: World, z: ZoneId, x: Id, y: Id, p: Vec)
    requires Named(w) && Agree(w) && z in w.zones && x in w.zones[z].entities && x != y && y in w.entities && x in w.entities
    requires p == w.Obj(w.zones[z].entities[x]).position
    ensures var w1 := MoveEntity(w, y, p);
            && z in w1.zones && x in w1.zones[z].entities && w1.entities == w.entities && w1.entityZone == w.entityZone && w1.Visible(x) == w.Visible(x)
            && w1.Obj(w1.entities[y]).position == w1.Obj(w1.zones[z].entities[x]).position
            && w1.SpaceOf(x) == w.SpaceOf(x) && w1.SpaceOf(y) == w.SpaceOf(y)
  {
    assert LiveOk(w, x) && LiveOk(w, y);
    MoveZonesShrink(w, y, p);
    var w1 := MoveEntity(w, y, p);
    assert w1.objs == w.objs[w.entities[y] := w.Obj(w.entities[y]).(position := p)];
  }

  /** Observing `x` in zone `z` sends it a Spawn of `y`. */
  ghost predicate Announces(w: World, z: ZoneId, x: Id, y: Id, spawns: seq<Id>, despawns: seq<Id>) {
    exists ev :: SpawnedBy(w, z, x, spawns, despawns, ev) && ev.observer == x && ev.subject == y
  }

  // ---------- a newcomer beside a live observer ----------

  /** One addition beside a live observer, in a zone with a Space or without: the observer is sent a
      Spawn, and that joins one Space if and only if the newcomer gets the observer's Space. */
  lemma NewcomerJoinsIff(w: World, z: ZoneId, x: Id, e: Entity, v: EntityVal, spawns: seq<Id>, despawns: seq<Id>)
    requires Inv(w) && AllSettled(w) && z in w.zones && x in w.zones[z].entities && x in w.entities && z != ""
    requires Beside(w, z, x, v) && v.id !in w.Visible(x) && e !in w.objs
    requires Enabled(AddEntity(w, e, v), ObserveOne(z, x, spawns, despawns))
    ensures var w1 := AddEntity(w, e, v);
            && Announces(w1, z, x, v.id, spawns, despawns)
            && (w1.SpaceOf(x) == w1.SpaceOf(v.id) <==> w.SpaceOf(x) == NewSpace(w, v))
  {
    NewcomerAnnounced(w, z, x, e, v, spawns, despawns);
    NewcomerSpaces(w, x, e, v);
  }

  lemma NewcomerAnnounced(w: World, z: ZoneId, x: Id, e: Entity, v: EntityVal, spawns: seq<Id>, despawns: seq<Id>)
    requires Inv(w) && AllSettled(w) && z in w.zones && x in w.zones[z].entities && x in w.entities && z != ""
    requires Beside(w, z, x, v) && v.id !in w.Visible(x) && e !in w.objs
    requires Enabled(AddEntity(w, e, v), ObserveOne(z, x, spawns, despawns))
    ensures Announces(AddEntity(w, e, v), z, x, v.id, spawns, despawns)
  {
    NewcomerReady(w, z, x, e, v);
    NewNeighbourSeen(AddEntity(w, e, v), z, x, v.id, spawns, despawns);
  }

  lemma NewcomerSpaces(w: World, x: Id, e: Entity, v: EntityVal)
    requires Agree(w) && x in w.entities && v.id !in w.entities && e !in w.objs
    ensures AddEntity(w, e, v).SpaceOf(x) == w.SpaceOf(x) && AddEntity(w, e, v).SpaceOf(v.id) == NewSpace(w, v)
  {
    assert LiveOk(w, x);
    AddedSpaces(w, e, v, x);
  }

  /** A new entity for zone `z`, standing where the zone's entry of `x` stands. */
  ghost predicate Beside(w: World, z: ZoneId, x: Id, v: EntityVal)
    requires z in w.zones && x in w.zones[z].entities
  {
    v.zoneId == z && v.id !in w.entities && IsReal(v.id) && v.position == w.Obj(w.zones[z].entities[x]).position
  }

  /** `y` is a live entity of zone `z`, not yet visible to `x`, standing where the entry of `x` stands. */
  ghost predicate Unseen(w: World, z: ZoneId, x: Id, y: Id) {
    && ZonesOk(w) && Agree(w) && z in w.zones && Settled(w, z) && x in w.zones[z].entities
    && y in w.entities && y in w.entityZone && w.entityZone[y] == z && y != x && y !in w.Visible(x)
    && w.Obj(w.entities[y]).position == w.Obj(w.zones[z].entities[x]).position
  }

  lemma NewcomerReady(w: World, z: ZoneId, x: Id, e: Entity, v: EntityVal)
    requires Inv(w) && AllSettled(w) && z in w.zones && x in w.zones[z].entities && x in w.entities && z != ""
    requires Beside(w, z, x, v) && v.id !in w.Visible(x) && e !in w.objs
    ensures Unseen(AddEntity(w, e, v), z, x, v.id)
  {
    AddKeeps(w, e, v);
    AddSettled(w, e, v);
    NewcomerStands(w, z, x, e, v);
    BundleUnseen(AddEntity(w, e, v), z, x, v.id);
  }

  lemma BundleUnseen(w: World, z: ZoneId, x: Id, y: Id)
    requires ZonesOk(w) && Agree(w) && AllSettled(w) && z in w.zones && x in w.zones[z].entities
    requires y in w.entities && y in w.entityZone && w.entityZone[y] == z && y != x && y !in w.Visible(x)
    requires w.Obj(w.entities[y]).position == w.Obj(w.zones[z].entities[x]).position
    ensures Unseen(w, z, x, y)
  {
    assert Settled(w, z);
  }

  lemma NewcomerStands(w: World, z: ZoneId, x: Id, e: Entity, v: EntityVal)
    requires Named(w) && z in w.zones && x in w.zones[z].entities && x != v.id && e !in w.objs
    requires v.zoneId == z && z != "" && v.position == w.Obj(w.zones[z].entities[x]).position
    ensures var w1 := AddEntity(w, e, v);
            && z in w1.zones && x in w1.zones[z].entities && v.id in w1.entities && w1.entityZone[v.id] == z
            && w1.Visible(x) == w.Visible(x)
            && w1.Obj(w1.entities[v.id]).position == w1.Obj(w1.zones[z].entities[x]).position
  {
  }

  lemma SamePlaceInRange(w: World, z: ZoneId, c: Vec, y: Id)
    requires ZonesOk(w) && Agree(w) && z in w.zones && Settled(w, z) && IsReal(y)
    requires y in w.entities && y in w.entityZone && w.entityZone[y] == z && w.Obj(w.entities[y]).position == c
    ensures y in w.zones[z].grid.InRange(c, AOI_RADIUS)
  {
    NoDistance(c);
    RangeOfSettled(w, z, c, AOI_RADIUS, y);
  }

  lemma NoDistance(c: Vec)
    ensures DistSq(c, c) == 0.0
  {
  }

  lemma UnseenIsAround(w: World, z: ZoneId, x: Id, y: Id)
    requires Unseen(w, z, x, y)
    ensures y in w.Surroundings(z, x)
  {
    assert LiveOk(w, y);
    SamePlaceInRange(w, z, w.Obj(w.zones[z].entities[x]).position, y);
  }

  lemma NewNeighbourPublished(w: World, z: ZoneId, x: Id, y: Id, spawns: seq<Id>, despawns: seq<Id>)
    requires z in w.zones && x in w.zones[z].entities && y in spawns && y in w.entities && y != x && y !in w.Visible(x)
    ensures Announces(w, z, x, y, spawns, despawns)
  {
    var v := w.Obj(w.zones[z].entities[x]);
    SpawnSubjects(w, v.runtimeId, x, spawns);
    var ev := Event(Spawn, v.runtimeId, x, y, w.Obj(w.entities[y]).typ, w.Obj(w.entities[y]).position);
    ObserveLog(w, z, x, spawns, despawns);
    var evs := DeltaEvents(w, v.runtimeId, x, w.Surroundings(z, x), spawns, despawns);
    assert ev in evs;
    var i :| 0 <= i < |evs| && evs[i] == ev;
    assert Observe(w, z, x, spawns, despawns).log[|w.log| + i].event == ev;
  }

  /** An entity not yet visible, standing where `x` does, is announced to `x`. */
  lemma NewNeighbourSeen(w: World, z: ZoneId, x: Id, y: Id, spawns: seq<Id>, despawns: seq<Id>)
    requires Unseen(w, z, x, y) && Enabled(w, ObserveOne(z, x, spawns, despawns))
    ensures Announces(w, z, x, y, spawns, despawns)
  {
    UnseenIsAround(w, z, x, y);
    AroundIsVisited(w, z, x, y, spawns, despawns);
    NewNeighbourPublished(w, z, x, y, spawns, despawns);
  }

  lemma AroundIsVisited(w: World, z: ZoneId, x: Id, y: Id, spawns: seq<Id>, despawns: seq<Id>)
    requires Enabled(w, ObserveOne(z, x, spawns, despawns)) && y in w.Surroundings(z, x)
    ensures y in spawns
  {
  }
}
