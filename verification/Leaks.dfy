/** Two runs from an empty server in which a live client is sent a Spawn of another Space. */
module Leaks {
  import opened Ids
  import opened Objects
  import opened Worlds
  import opened Invariants
  import opened Visibility
  import opened Clients
  import opened Spaces

  /** `ops` is a run that every caller's discipline allows, and it ends in `w`. */
  ghost predicate Reaches(ops: seq<Op>, w: World) {
    AllEnabled(Start(), ops) && AllDisciplined(Start(), ops) && AllFresh(Start(), ops) && Run(Start(), ops) == w
  }

  ghost predicate Allowed(w: World, op: Op) {
    Enabled(w, op) && Disciplined(w, op) && FreshObjects(w, op)
  }

  lemma ReachesMore(ops: seq<Op>, w: World, op: Op)
    requires Reaches(ops, w) && Allowed(w, op)
    ensures Reaches(ops + [op], Step(w, op))
  {
    EnabledMore(Start(), ops, op);
    RunMore(Start(), ops, op);
    DisciplinedMore(Start(), ops, op);
    FreshMore(Start(), ops, op);
  }

  lemma DisciplinedMore(w: World, ops: seq<Op>, op: Op)
    requires AllDisciplined(w, ops) && Disciplined(Run(w, ops), op)
    ensures AllDisciplined(w, ops + [op])
  {
    var more := ops + [op];
    forall i | 0 <= i < |more| ensures Disciplined(Run(w, more[..i]), more[i]) {
      assert more[..i] == if i < |ops| then ops[..i] else ops;
    }
  }

  lemma FreshMore(w: World, ops: seq<Op>, op: Op)
    requires AllFresh(w, ops) && FreshObjects(Run(w, ops), op)
    ensures AllFresh(w, ops + [op])
  {
    var more := ops + [op];
    forall i | 0 <= i < |more| ensures FreshObjects(Run(w, more[..i]), more[i]) {
      assert more[..i] == if i < |ops| then ops[..i] else ops;
    }
  }

  /** Nobody has been added yet. */
  ghost predicate Bare(w: World) {
    && w.entities == map[] && w.entityZone == map[] && w.entityAOI == map[] && w.sessions == map[] && w.objs == map[]
    && forall z :: z in w.zones ==> w.zones[z].entities == map[]
  }

  ghost predicate Has(w: World, zone: Zone) {
    zone.id in w.zones && w.zones[zone.id].zone == Some(zone) && OwnIndex(w, zone.id)
  }

  lemma AssignBare(w: World, zone: Zone)
    requires Bare(w) && zone.id !in w.zones
    ensures Bare(AssignZone(w, zone)) && Has(AssignZone(w, zone), zone)
    ensures forall o: Zone :: Has(w, o) && o.id != zone.id ==> Has(AssignZone(w, zone), o)
  {
  }

  lemma ReachesAssign(ops: seq<Op>, w: World, zone: Zone)
    requires Reaches(ops, w)
    ensures Reaches(ops + [Assign(zone)], AssignZone(w, zone))
  {
    ReachesMore(ops, w, Assign(zone));
  }

  lemma ReachesAdd(ops: seq<Op>, w: World, e: Entity, v: EntityVal)
    requires Reaches(ops, w) && IsReal(v.id) && v.id !in w.entities && e !in w.objs
    ensures Reaches(ops + [Add(e, v)], AddEntity(w, e, v))
  {
    ReachesMore(ops, w, Add(e, v));
  }

  lemma ReachesSweep(ops: seq<Op>, w: World, x: Id, t: int, now: int)
    requires Reaches(ops, w) && x in w.entities && x in w.entityZone && OwnIndex(w, w.entityZone[x])
    ensures Reaches(ops + [Disconnect(x, t)] + [SweepOne(x, now)], SweepSession(MarkDisconnected(w, x, t), x, now))
  {
    ReachesMark(ops, w, x, t);
    ReachesSwept(ops + [Disconnect(x, t)], MarkDisconnected(w, x, t), x, now);
  }

  lemma ReachesMark(ops: seq<Op>, w: World, x: Id, t: int)
    requires Reaches(ops, w)
    ensures Reaches(ops + [Disconnect(x, t)], MarkDisconnected(w, x, t))
  {
    ReachesMore(ops, w, Disconnect(x, t));
  }

  lemma ReachesSwept(ops: seq<Op>, w: World, x: Id, now: int)
    requires Reaches(ops, w) && x in w.entityZone && OwnIndex(w, w.entityZone[x])
    ensures Reaches(ops + [SweepOne(x, now)], SweepSession(w, x, now))
  {
    SweepAllowed(w, x, now);
    ReachesMore(ops, w, SweepOne(x, now));
  }

  lemma SweepAllowed(w: World, x: Id, now: int)
    requires x in w.entityZone && OwnIndex(w, w.entityZone[x])
    ensures Allowed(w, SweepOne(x, now)) && Step(w, SweepOne(x, now)) == SweepSession(w, x, now)
  {
  }

  // ---------- a swept entity added elsewhere ----------

  function Person(x: Id, p: Vec, z: ZoneId, space: string): EntityVal {
    EntityVal(x, "", p, z, space, false)
  }

  /** `x` is live in zone `z` as object `e`, and nobody else is. */
  ghost predicate Only(w: World, x: Id, z: ZoneId, e: Entity) {
    && w.entities == map[x := e] && w.entityZone == map[x := z] && w.entityAOI.Keys == {x} && w.Visible(x) == {}
  }

  /** Zone `z` lists `x` as object `e`, standing at `p`. */
  ghost predicate Lists(w: World, z: ZoneId, x: Id, e: Entity, p: Vec) {
    z in w.zones && x in w.zones[z].entities && w.zones[z].entities[x] == e && w.Obj(e).position == p
  }

  lemma AddFirst(w: World, zone: Zone, x: Id, p: Vec, space: string, e: Entity)
    requires Bare(w) && Has(w, zone) && zone.id != ""
    ensures var w' := AddEntity(w, e, Person(x, p, zone.id, space));
            && Only(w', x, zone.id, e) && Lists(w', zone.id, x, e, p) && w'.objs.Keys == {e} && w'.sessions == map[]
            && w'.SpaceOf(x) == (if zone.runtimeId != "" then zone.runtimeId else space)
            && w'.zones.Keys == w.zones.Keys && forall o :: Has(w, o) ==> Has(w', o)
  {
  }

  lemma SweepOnly(w: World, z: ZoneId, x: Id, e: Entity, p: Vec, t: int, now: int)
    requires Only(w, x, z, e) && Lists(w, z, x, e, p) && OwnIndex(w, z) && w.sessions == map[] && now - t > RECONNECT_WINDOW
    ensures var w' := SweepSession(MarkDisconnected(w, x, t), x, now);
            && w'.entities == map[] && w'.entityZone == map[] && w'.entityAOI == map[] && w'.objs == w.objs
            && Lists(w', z, x, e, p) && w'.zones.Keys == w.zones.Keys && forall o :: Has(w, o) ==> Has(w', o)
  {
  }

  lemma AddAgain(w: World, home: Zone, z: ZoneId, x: Id, p: Vec, e: Entity, e': Entity)
    requires w.entities == map[] && w.entityZone == map[] && w.entityAOI == map[] && w.objs.Keys == {e} && e' != e
    requires Has(w, home) && home.id != "" && home.runtimeId != "" && home.id != z && Lists(w, z, x, e, p)
    ensures var w' := AddEntity(w, e', Person(x, p, home.id, ""));
            && Only(w', x, home.id, e') && Lists(w', z, x, e, p) && w'.objs.Keys == {e, e'} && w'.SpaceOf(x) == home.runtimeId
            && forall o :: Has(w, o) ==> Has(w', o)
  {
  }

  /** Assign two zones of different Spaces, add `x` to the first, let it disconnect and be swept, and
      add it again to the second. */
  function LeftoverOps(za: Zone, zb: Zone, x: Id, p: Vec, e: Entity, e': Entity, t: int, now: int): seq<Op> {
    [Assign(za)] + [Assign(zb)] + [Add(e, Person(x, p, za.id, ""))] + [Disconnect(x, t)] + [SweepOne(x, now)]
    + [Add(e', Person(x, p, zb.id, ""))]
  }

  lemma LeftoverReached(za: Zone, zb: Zone, x: Id, p: Vec, e: Entity, e': Entity, t: int, now: int) returns (w: World)
    requires za.id != zb.id && za.id != "" && zb.id != "" && za.runtimeId != "" && zb.runtimeId != ""
    requires IsReal(x) && e != e' && now - t > RECONNECT_WINDOW
    ensures Reaches(LeftoverOps(za, zb, x, p, e, e', t, now), w)
    ensures Only(w, x, zb.id, e') && Lists(w, za.id, x, e, p) && w.objs.Keys == {e, e'} && Has(w, za)
    ensures w.SpaceOf(x) == zb.runtimeId
  {
    w := BothAssigned(za, zb);
    var ops := [Assign(za)] + [Assign(zb)];
    w := LeftoverSwept(ops, w, za, x, p, e, t, now);
    assert Has(w, zb);
    ops := ops + [Add(e, Person(x, p, za.id, ""))] + [Disconnect(x, t)] + [SweepOne(x, now)];
    ReachesAdd(ops, w, e', Person(x, p, zb.id, ""));
    AddAgain(w, zb, za.id, x, p, e, e');
    w := AddEntity(w, e', Person(x, p, zb.id, ""));
  }

  lemma OneAssigned(zone: Zone)
    ensures Reaches([Assign(zone)], AssignZone(Start(), zone)) && Bare(AssignZone(Start(), zone)) && Has(AssignZone(Start(), zone), zone)
  {
    ReachesAssign([], Start(), zone);
    assert [] + [Assign(zone)] == [Assign(zone)];
    AssignBare(Start(), zone);
  }

  lemma BothAssigned(za: Zone, zb: Zone) returns (w: World)
    requires za.id != zb.id
    ensures Reaches([Assign(za)] + [Assign(zb)], w) && Bare(w) && Has(w, za) && Has(w, zb)
  {
    OneAssigned(za);
    w := AssignZone(Start(), za);
    ReachesAssign([Assign(za)], w, zb);
    AssignBare(w, zb);
    w := AssignZone(w, zb);
  }

  lemma LeftoverSwept(ops: seq<Op>, w0: World, za: Zone, x: Id, p: Vec, e: Entity, t: int, now: int) returns (w: World)
    requires Reaches(ops, w0) && Bare(w0) && Has(w0, za) && za.id != "" && IsReal(x) && now - t > RECONNECT_WINDOW
    ensures Reaches(ops + [Add(e, Person(x, p, za.id, ""))] + [Disconnect(x, t)] + [SweepOne(x, now)], w)
    ensures w.entities == map[] && w.entityZone == map[] && w.entityAOI == map[] && w.objs.Keys == {e} && Lists(w, za.id, x, e, p)
    ensures w.zones.Keys == w0.zones.Keys && forall o :: Has(w0, o) ==> Has(w, o)
  {
    var v := Person(x, p, za.id, "");
    ReachesAdd(ops, w0, e, v);
    AddFirst(w0, za, x, p, "", e);
    var w1 := AddEntity(w0, e, v);
    ReachesSweep(ops + [Add(e, v)], w1, x, t, now);
    SweepOnly(w1, za.id, x, e, p, t, now);
    w := SweepSession(MarkDisconnected(w1, x, t), x, now);
  }

  /** Adding someone of another Space beside a live observer leaks, after any run. */
  lemma AddLeaks(ops: seq<Op>, w: World, z: ZoneId, x: Id, f: Entity, v: EntityVal, spawns: seq<Id>, despawns: seq<Id>)
    requires Reaches(ops, w) && z in w.zones && x in w.zones[z].entities && x in w.entities && z != ""
    requires Beside(w, z, x, v) && v.id !in w.Visible(x) && f !in w.objs && w.SpaceOf(x) != NewSpace(w, v)
    ensures Reaches(ops + [Add(f, v)], AddEntity(w, f, v))
    ensures x in AddEntity(w, f, v).entities && v.id in AddEntity(w, f, v).entities
    ensures Enabled(AddEntity(w, f, v), ObserveOne(z, x, spawns, despawns)) ==> LeakAt(AddEntity(w, f, v), z, x, v.id, spawns, despawns)
  {
    ReachesAdd(ops, w, f, v);
    DisciplinedRun(ops);
    if Enabled(AddEntity(w, f, v), ObserveOne(z, x, spawns, despawns)) { NewcomerJoinsIff(w, z, x, f, v, spawns, despawns); }
  }

  /** Observing `x` in zone `z` sends it a Spawn of `y`, which is of another Space. */
  ghost predicate LeakAt(w: World, z: ZoneId, x: Id, y: Id, spawns: seq<Id>, despawns: seq<Id>) {
    w.SpaceOf(x) != w.SpaceOf(y) && Announces(w, z, x, y, spawns, despawns)
  }

  /** The leftover entry is reached, and it leaks: one addition to the old zone, beside the entry, and
      the old zone's next pass tells the client in the other Space. */
  lemma LeftoverLeaks(za: Zone, zb: Zone, x: Id, p: Vec, e: Entity, e': Entity, t: int, now: int,
                      y: Id, f: Entity, spawns: seq<Id>, despawns: seq<Id>)
    requires za.id != zb.id && za.id != "" && zb.id != "" && za.runtimeId != "" && zb.runtimeId != "" && za.runtimeId != zb.runtimeId
    requires IsReal(x) && IsReal(y) && x != y && e != e' && f != e && f != e' && now - t > RECONNECT_WINDOW
    requires var ops := LeftoverOps(za, zb, x, p, e, e', t, now) + [Add(f, Person(y, p, za.id, ""))];
             Enabled(Run(Start(), ops), ObserveOne(za.id, x, spawns, despawns))
    ensures var ops := LeftoverOps(za, zb, x, p, e, e', t, now) + [Add(f, Person(y, p, za.id, ""))];
            var w := Run(Start(), ops);
            Reaches(ops, w) && x in w.entities && y in w.entities && LeakAt(w, za.id, x, y, spawns, despawns)
  {
    var w := LeftoverReached(za, zb, x, p, e, e', t, now);
    LeftoverFits(w, za, zb, x, p, e, e', y, f);
    AddLeaks(LeftoverOps(za, zb, x, p, e, e', t, now), w, za.id, x, f, Person(y, p, za.id, ""), spawns, despawns);
  }

  lemma LeftoverFits(w: World, za: Zone, zb: Zone, x: Id, p: Vec, e: Entity, e': Entity, y: Id, f: Entity)
    requires Only(w, x, zb.id, e') && Lists(w, za.id, x, e, p) && w.objs.Keys == {e, e'} && Has(w, za) && w.SpaceOf(x) == zb.runtimeId
    requires za.id != "" && za.runtimeId != "" && za.runtimeId != zb.runtimeId && IsReal(y) && x != y && f != e && f != e'
    ensures var v := Person(y, p, za.id, "");
            za.id in w.zones && x in w.zones[za.id].entities && x in w.entities && Beside(w, za.id, x, v) && v.id !in w.Visible(x)
            && f !in w.objs && w.SpaceOf(x) != NewSpace(w, v)
  {
  }

  // ---------- a zone without a Space ----------

  /** A zone without a Space takes whoever comes: two additions of different Spaces, one beside the
      other, and the first is sent a Spawn of the second. */
  lemma SpacelessLeaks(zone: Zone, x: Id, y: Id, p: Vec, sx: string, sy: string, e: Entity, f: Entity, spawns: seq<Id>, despawns: seq<Id>)
    requires zone.id != "" && zone.runtimeId == "" && IsReal(x) && IsReal(y) && x != y && e != f && sx != sy
    requires var ops := [Assign(zone)] + [Add(e, Person(x, p, zone.id, sx))] + [Add(f, Person(y, p, zone.id, sy))];
             Enabled(Run(Start(), ops), ObserveOne(zone.id, x, spawns, despawns))
    ensures var ops := [Assign(zone)] + [Add(e, Person(x, p, zone.id, sx))] + [Add(f, Person(y, p, zone.id, sy))];
            var w := Run(Start(), ops);
            Reaches(ops, w) && x in w.entities && y in w.entities && LeakAt(w, zone.id, x, y, spawns, despawns)
  {
    OneAssigned(zone);
    var w0 := AssignZone(Start(), zone);
    var ops := [Assign(zone)] + [Add(e, Person(x, p, zone.id, sx))];
    ReachesAdd([Assign(zone)], w0, e, Person(x, p, zone.id, sx));
    AddFirst(w0, zone, x, p, sx, e);
    var w := AddEntity(w0, e, Person(x, p, zone.id, sx));
    AddLeaks(ops, w, zone.id, x, f, Person(y, p, zone.id, sy), spawns, despawns);
  }
}
