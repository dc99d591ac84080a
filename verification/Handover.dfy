/** Handing a zone from one server to another. */
module Handover {
  import opened Ids
  import opened Grids
  import opened Objects
  import opened Worlds
  import opened Invariants
  import opened Visibility
  import GridHistory

  /** One entity as it travels. */
  datatype Snap = Snap(id: Id, typ: string, position: Vec)

  function SnapIds(snaps: seq<Snap>): (ids: seq<Id>)
    ensures |ids| == |snaps| && forall i :: 0 <= i < |snaps| ==> ids[i] == snaps[i].id
  {
    seq(|snaps|, i requires 0 <= i < |snaps| => snaps[i].id)
  }

  predicate LivesIn(w: World, x: Id, z: ZoneId) {
    x in w.entities && x in w.entityZone && w.entityZone[x] == z
  }

  function SnapOf(w: World, x: Id): Snap
    requires x in w.entities
  {
    Snap(x, w.Obj(w.entities[x]).typ, w.Obj(w.entities[x]).position)
  }

  /** SnapshotZone: the live entities of the zone, in the order the map was iterated. */
  ghost predicate IsSnapshot(w: World, z: ZoneId, snaps: seq<Snap>) {
    && (forall i, j :: 0 <= i < j < |snaps| ==> snaps[i].id != snaps[j].id)
    && (forall x :: x in SnapIds(snaps) <==> LivesIn(w, x, z))
    && forall i :: 0 <= i < |snaps| && snaps[i].id in w.entities ==> snaps[i] == SnapOf(w, snaps[i].id)
  }

  function Arrival(s: Snap, z: ZoneId): EntityVal {
    EntityVal(s.id, s.typ, s.position, z, "", false)
  }

  /** The second half of LoadZoneSnapshot: a new object per entity, added one by one. */
  ghost function Loaded(t: World, z: ZoneId, snaps: seq<Snap>, objs: seq<Entity>): World
    requires |objs| == |snaps|
  {
    if snaps == [] then t
    else
      var n := |snaps| - 1;
      AddEntity(Loaded(t, z, snaps[..n], objs[..n]), objs[n], Arrival(snaps[n], z))
  }

  lemma LoadedMore(t: World, z: ZoneId, snaps: seq<Snap>, objs: seq<Entity>, s: Snap, e: Entity)
    requires |objs| == |snaps|
    ensures Loaded(t, z, snaps + [s], objs + [e]) == AddEntity(Loaded(t, z, snaps, objs), e, Arrival(s, z))
  {
    assert (snaps + [s])[..|snaps|] == snaps && (objs + [e])[..|objs|] == objs;
  }

  /** The target may take the snapshot: the zone is assigned, the objects are new, and none of the
      ids is live there. */
  ghost predicate MayLoad(t: World, z: ZoneId, snaps: seq<Snap>, objs: seq<Entity>) {
    && z != "" && z in t.zones && |objs| == |snaps|
    && (forall i :: 0 <= i < |snaps| ==> IsReal(snaps[i].id) && snaps[i].id !in t.entities && objs[i] !in t.objs)
    && (forall i, j :: 0 <= i < j < |snaps| ==> snaps[i].id != snaps[j].id && objs[i] != objs[j])
  }

  /** Exactly the snapshot's ids and objects are new; the rest is as before. */
  ghost predicate OnlyNew(t: World, t': World, ids: seq<Id>, objs: seq<Entity>) {
    && t'.entities.Keys == t.entities.Keys + (set x | x in ids)
    && t'.objs.Keys == t.objs.Keys + (set e | e in objs)
    && (forall x :: x in t.entities && x !in ids ==> t'.entities[x] == t.entities[x])
    && (forall x :: x in t.entityZone && x !in ids ==> x in t'.entityZone && t'.entityZone[x] == t.entityZone[x])
    && (forall e :: e in t.objs && e !in objs ==> t'.objs[e] == t.objs[e])
  }

  /** A travelled entity is alive in zone `z`, as one of the new objects, with the type and position
      it travelled with. */
  ghost predicate Arrived(t: World, z: ZoneId, s: Snap, objs: seq<Entity>) {
    && LivesIn(t, s.id, z) && t.entities[s.id] in objs && t.entities[s.id] in t.objs && SnapOf(t, s.id) == s
    && AtHomeIn(t, z, t.objs[t.entities[s.id]]) && !t.objs[t.entities[s.id]].autonomous
  }

  /** What an object holds names zone `z` and, if the zone has a Space, that Space. */
  predicate AtHomeIn(t: World, z: ZoneId, v: EntityVal) {
    && v.zoneId == z && z in t.zones
    && (t.zones[z].zone.Some? && t.zones[z].zone.value.runtimeId != "" ==> v.runtimeId == t.zones[z].zone.value.runtimeId)
  }

  ghost predicate AllArrived(t: World, z: ZoneId, snaps: seq<Snap>, objs: seq<Entity>) {
    forall i :: 0 <= i < |snaps| ==> Arrived(t, z, snaps[i], objs)
  }

  lemma PrefixMayLoad(t: World, z: ZoneId, snaps: seq<Snap>, objs: seq<Entity>)
    requires MayLoad(t, z, snaps, objs) && snaps != []
    ensures MayLoad(t, z, snaps[..|snaps| - 1], objs[..|snaps| - 1])
    ensures snaps[|snaps| - 1].id !in SnapIds(snaps[..|snaps| - 1]) && objs[|snaps| - 1] !in objs[..|snaps| - 1]
  {
  }

  /** `t'` is `t` with one more entity. */
  ghost predicate OneMore(t: World, t': World, z: ZoneId, s: Snap, e: Entity) {
    && t'.entities == t.entities[s.id := e] && t'.entityZone == t.entityZone[s.id := z]
    && e in t'.objs && t'.objs == t.objs[e := t'.objs[e]]
    && t'.objs[e].typ == s.typ && t'.objs[e].position == s.position && !t'.objs[e].autonomous
    && AtHomeIn(t', z, t'.objs[e]) && z in t.zones && t'.zones[z].zone == t.zones[z].zone
  }

  lemma LoadStep(t: World, z: ZoneId, s: Snap, e: Entity)
    requires z != "" && z in t.zones
    ensures OneMore(t, AddEntity(t, e, Arrival(s, z)), z, s, e) && z in AddEntity(t, e, Arrival(s, z)).zones
  {
  }

  lemma {:induction false} LoadArrives(t: World, z: ZoneId, snaps: seq<Snap>, objs: seq<Entity>)
    requires MayLoad(t, z, snaps, objs)
    ensures var t' := Loaded(t, z, snaps, objs);
            && z in t'.zones && t'.zones[z].zone == t.zones[z].zone
            && OnlyNew(t, t', SnapIds(snaps), objs) && AllArrived(t', z, snaps, objs)
    decreases |snaps|
  {
    if snaps != [] {
      var n := |snaps| - 1;
      PrefixMayLoad(t, z, snaps, objs);
      LoadArrives(t, z, snaps[..n], objs[..n]);
      var t1, t2 := Loaded(t, z, snaps[..n], objs[..n]), Loaded(t, z, snaps, objs);
      LoadStep(t1, z, snaps[n], objs[n]);
      OneMoreNew(t, t1, t2, z, snaps, objs);
      ArriveOneMore(t1, t2, z, snaps, objs);
    }
  }

  lemma OneMoreNew(t: World, t1: World, t2: World, z: ZoneId, snaps: seq<Snap>, objs: seq<Entity>)
    requires snaps != [] && |objs| == |snaps| && objs[|snaps| - 1] !in t.objs
    requires OnlyNew(t, t1, SnapIds(snaps[..|snaps| - 1]), objs[..|snaps| - 1])
    requires OneMore(t1, t2, z, snaps[|snaps| - 1], objs[|snaps| - 1])
    ensures OnlyNew(t, t2, SnapIds(snaps), objs)
  {
    var n := |snaps| - 1;
    var ids, es := SnapIds(snaps[..n]), objs[..n];
    NewOneMore(t, t1, t2, z, ids, es, snaps[n], objs[n]);
    assert SnapIds(snaps) == ids + [snaps[n].id] && objs == es + [objs[n]];
  }

  lemma NewOneMore(t: World, t1: World, t2: World, z: ZoneId, ids: seq<Id>, objs: seq<Entity>, s: Snap, e: Entity)
    requires OnlyNew(t, t1, ids, objs) && OneMore(t1, t2, z, s, e) && e !in t.objs
    ensures OnlyNew(t, t2, ids + [s.id], objs + [e])
  {
  }

  lemma ArriveOneMore(t1: World, t2: World, z: ZoneId, snaps: seq<Snap>, objs: seq<Entity>)
    requires snaps != [] && |objs| == |snaps|
    requires AllArrived(t1, z, snaps[..|snaps| - 1], objs[..|snaps| - 1])
    requires OneMore(t1, t2, z, snaps[|snaps| - 1], objs[|snaps| - 1])
    requires snaps[|snaps| - 1].id !in SnapIds(snaps[..|snaps| - 1]) && objs[|snaps| - 1] !in objs[..|snaps| - 1]
    ensures AllArrived(t2, z, snaps, objs)
  {
    var n := |snaps| - 1;
    assert objs == objs[..n] + [objs[n]];
    forall i | 0 <= i < |snaps| ensures Arrived(t2, z, snaps[i], objs) {
      if i < n {
        assert snaps[..n][i] == snaps[i] && SnapIds(snaps[..n])[i] == snaps[i].id;
        assert Arrived(t1, z, snaps[i], objs[..n]);
      }
    }
  }

  // ---------- the loaded server is in order ----------

  lemma {:induction false} LoadSettles(t: World, z: ZoneId, snaps: seq<Snap>, objs: seq<Entity>)
    requires MayLoad(t, z, snaps, objs) && Inv(t) && Settled(t, z)
    ensures var t' := Loaded(t, z, snaps, objs); Inv(t') && z in t'.zones && Settled(t', z)
    decreases |snaps|
  {
    if snaps != [] {
      var n := |snaps| - 1;
      PrefixMayLoad(t, z, snaps, objs);
      LoadSettles(t, z, snaps[..n], objs[..n]);
      LoadArrives(t, z, snaps[..n], objs[..n]);
      var t1, v := Loaded(t, z, snaps[..n], objs[..n]), Arrival(snaps[n], z);
      MayAdd(t, t1, z, snaps, objs);
      AddKeeps(t1, objs[n], v);
      AddSettlesZone(t1, objs[n], v);
    }
  }

  lemma AddSettlesZone(t: World, e: Entity, v: EntityVal)
    requires ZonesOk(t) && t.entities.Keys == t.entityZone.Keys && ZoneFor(v) in t.zones && Settled(t, ZoneFor(v))
    requires IsReal(v.id) && v.id !in t.entities
    ensures ZoneFor(v) in AddEntity(t, e, v).zones && Settled(AddEntity(t, e, v), ZoneFor(v))
  {
    var z := ZoneFor(v);
    assert ZoneOk(t, z);
    AddGrids(t, e, v, z);
    EnterClean(t.zones[z].grid, v.id, v.position);
    EnterPositions(t.zones[z].grid, v.id, v.position);
  }

  lemma MayAdd(t: World, t1: World, z: ZoneId, snaps: seq<Snap>, objs: seq<Entity>)
    requires MayLoad(t, z, snaps, objs) && snaps != [] && z in t1.zones
    requires OnlyNew(t, t1, SnapIds(snaps[..|snaps| - 1]), objs[..|snaps| - 1])
    ensures var op := Add(objs[|snaps| - 1], Arrival(snaps[|snaps| - 1], z));
            Enabled(t1, op) && Disciplined(t1, op)
  {
    PrefixMayLoad(t, z, snaps, objs);
  }

  // ---------- the theorem ----------

  /** Source and target after the handover: snapshot on the source, assign and load on the target,
      release on the source. */
  ghost predicate HandedOver(s: World, t: World, zone: Zone, saved: Option<GridHistory.Saved>, order: seq<Id>, snaps: seq<Snap>, objs: seq<Entity>, s': World, t': World) {
    && IsSnapshot(s, zone.id, snaps) && zone.id !in t.zones
    && MayLoad(AssignZone(t, zone), zone.id, snaps, objs)
    && t' == Loaded(LoadIndex(AssignZone(t, zone), zone.id, saved, order), zone.id, snaps, objs)
    && s' == ReleaseZone(s, zone.id)
  }

  /** A snapshot of a server in order may be loaded as new objects where none of its ids is live. */
  lemma SnapshotMayLoad(s: World, t: World, zone: Zone, snaps: seq<Snap>, objs: seq<Entity>)
    requires Agree(s) && IsSnapshot(s, zone.id, snaps) && zone.id != "" && |objs| == |snaps|
    requires forall x :: LivesIn(s, x, zone.id) ==> x !in t.entities
    requires (forall i :: 0 <= i < |objs| ==> objs[i] !in t.objs) && forall i, j :: 0 <= i < j < |objs| ==> objs[i] != objs[j]
    ensures MayLoad(AssignZone(t, zone), zone.id, snaps, objs)
  {
    forall i | 0 <= i < |snaps| ensures IsReal(snaps[i].id) && snaps[i].id !in t.entities {
      assert snaps[i].id in SnapIds(snaps) by { assert SnapIds(snaps)[i] == snaps[i].id; }
      assert LivesIn(s, snaps[i].id, zone.id);
      assert LiveOk(s, snaps[i].id);
    }
  }

  lemma MovedArrives(s: World, t: World, z: ZoneId, snaps: seq<Snap>, objs: seq<Entity>, x: Id)
    requires IsSnapshot(s, z, snaps) && MayLoad(t, z, snaps, objs) && LivesIn(s, x, z)
    ensures var t' := Loaded(t, z, snaps, objs);
            && LivesIn(t', x, z) && SnapOf(t', x) == SnapOf(s, x) && t'.zones[z].zone == t.zones[z].zone
            && AtHomeIn(t', z, t'.Obj(t'.entities[x])) && !t'.Obj(t'.entities[x]).autonomous
  {
    LoadArrives(t, z, snaps, objs);
    assert x in SnapIds(snaps);
    var i :| 0 <= i < |snaps| && snaps[i].id == x;
    assert Arrived(Loaded(t, z, snaps, objs), z, snaps[i], objs);
  }

  lemma OthersStay(s: World, t: World, z: ZoneId, snaps: seq<Snap>, objs: seq<Entity>, x: Id)
    requires IsSnapshot(s, z, snaps) && MayLoad(t, z, snaps, objs) && !LivesIn(s, x, z)
    requires x in t.entities ==> t.entities[x] in t.objs
    ensures x in Loaded(t, z, snaps, objs).entities <==> x in t.entities
    ensures x in t.entities ==> SnapOf(Loaded(t, z, snaps, objs), x) == SnapOf(t, x)
  {
    LoadArrives(t, z, snaps, objs);
    assert x !in SnapIds(snaps);
    if x in t.entities { OldObjectStays(t, Loaded(t, z, snaps, objs), SnapIds(snaps), objs, x); }
  }

  lemma ReleaseTakesExactly(s: World, z: ZoneId, x: Id)
    requires z in s.zones && (x in s.entities ==> x in s.entityZone)
    ensures x in ReleaseZone(s, z).entities <==> x in s.entities && !LivesIn(s, x, z)
    ensures x in s.entities && !LivesIn(s, x, z) ==> SnapOf(ReleaseZone(s, z), x) == SnapOf(s, x)
  {
  }

  /** Every entity of the zone arrives with its type and position and is gone from the source, so
      each moved id is live on exactly one of the two servers. */
  lemma HandoverMoves(s: World, t: World, zone: Zone, saved: Option<GridHistory.Saved>, order: seq<Id>,
                       snaps: seq<Snap>, objs: seq<Entity>, s': World, t': World, x: Id)
    requires Inv(s) && Inv(t) && zone.id in s.zones && HandedOver(s, t, zone, saved, order, snaps, objs, s', t')
    requires LivesIn(s, x, zone.id)
    ensures LivesIn(t', x, zone.id) && SnapOf(t', x) == SnapOf(s, x) && x !in s'.entities
    ensures var a, b := s.Obj(s.entities[x]), t'.Obj(t'.entities[x]);
            && b.typ == a.typ && b.position == a.position && b.zoneId == zone.id
            && (zone.runtimeId != "" ==> b.runtimeId == zone.runtimeId) && !b.autonomous
  {
    AssignedLoadKeepsIndex(t, zone, saved, order);
    MovedArrives(s, AssignZone(t, zone), zone.id, snaps, objs, x);
    ReleaseTakesExactly(s, zone.id, x);
  }

  /** No other entity of either server changes. */
  lemma HandoverLeavesOthers(s: World, t: World, zone: Zone, saved: Option<GridHistory.Saved>, order: seq<Id>,
                              snaps: seq<Snap>, objs: seq<Entity>, s': World, t': World, x: Id)
    requires Inv(s) && Inv(t) && zone.id in s.zones && HandedOver(s, t, zone, saved, order, snaps, objs, s', t')
    requires !LivesIn(s, x, zone.id)
    ensures (x in s'.entities <==> x in s.entities) && (x in s.entities ==> SnapOf(s', x) == SnapOf(s, x))
    ensures (x in t'.entities <==> x in t.entities) && (x in t.entities ==> SnapOf(t', x) == SnapOf(t, x))
  {
    if x in t.entities { assert LiveOk(t, x); }
    if x in s.entities { assert LiveOk(s, x); }
    AssignedLoadKeepsIndex(t, zone, saved, order);
    OthersStay(s, AssignZone(t, zone), zone.id, snaps, objs, x);
    ReleaseTakesExactly(s, zone.id, x);
  }

  lemma OldObjectStays(t: World, t': World, ids: seq<Id>, objs: seq<Entity>, x: Id)
    requires OnlyNew(t, t', ids, objs) && x in t.entities && x !in ids && t.entities[x] in t.objs
    requires forall e :: e in objs ==> e !in t.objs
    ensures x in t'.entities && SnapOf(t', x) == SnapOf(t, x)
  {
  }

  /** The target answers every range query, among real ids, as the source did. */
  lemma HandoverKeepsAnswers(s: World, t: World, zone: Zone, saved: Option<GridHistory.Saved>, order: seq<Id>,
                              snaps: seq<Snap>, objs: seq<Entity>, s': World, t': World,
                             c: Vec, r: real, x: Id)
    requires Inv(s) && Inv(t) && zone.id in s.zones && Settled(s, zone.id)
    requires HandedOver(s, t, zone, saved, order, snaps, objs, s', t') && -AOI_RADIUS <= r <= AOI_RADIUS && IsReal(x)
    ensures zone.id in t'.zones
    ensures x in t'.zones[zone.id].grid.InRange(c, r) <==> x in s.zones[zone.id].grid.InRange(c, r)
  {
    var t1, z := AssignZone(t, zone), zone.id;
    AssignedLoadKeepsIndex(t, zone, saved, order);
    AssignKeeps(t, zone);
    NewZoneSettled(t, zone);
    LoadSettles(t1, z, snaps, objs);
    LoadArrives(t1, z, snaps, objs);
    if LivesIn(s, x, z) {
      HandoverMoves(s, t, zone, saved, order, snaps, objs, s', t', x);
    } else {
      NotInNewZone(s, t, zone, snaps, objs, t', x);
    }
    SameAnswers(s, t', z, c, r, x);
  }

  /** Nothing but the snapshot lives in the zone the target has just been given. */
  lemma NotInNewZone(s: World, t: World, zone: Zone, snaps: seq<Snap>, objs: seq<Entity>, t': World, x: Id)
    requires Agree(t) && IsSnapshot(s, zone.id, snaps) && zone.id !in t.zones && !LivesIn(s, x, zone.id)
    requires OnlyNew(AssignZone(t, zone), t', SnapIds(snaps), objs)
    ensures !LivesIn(t', x, zone.id)
  {
    assert x !in SnapIds(snaps);
    if x in t.entities { assert LiveOk(t, x); }
  }

  lemma NewZoneSettled(t: World, zone: Zone)
    requires zone.id !in t.zones
    ensures zone.id in AssignZone(t, zone).zones && Settled(AssignZone(t, zone), zone.id)
  {
  }

  lemma SameAnswers(s: World, t: World, z: ZoneId, c: Vec, r: real, x: Id)
    requires ZonesOk(s) && Agree(s) && z in s.zones && Settled(s, z) && ZonesOk(t) && Agree(t) && z in t.zones && Settled(t, z)
    requires IsReal(x) && -AOI_RADIUS <= r <= AOI_RADIUS
    requires LivesIn(s, x, z) <==> LivesIn(t, x, z)
    requires LivesIn(s, x, z) ==> SnapOf(t, x) == SnapOf(s, x)
    ensures x in t.zones[z].grid.InRange(c, r) <==> x in s.zones[z].grid.InRange(c, r)
  {
    RangeOfSettled(s, z, c, r, x);
    RangeOfSettled(t, z, c, r, x);
  }

  /** After an assignment the zone is indexed, so the saved grid is not installed over the one the
      arrivals enter. */
  lemma AssignedLoadKeepsIndex(t: World, zone: Zone, saved: Option<GridHistory.Saved>, order: seq<Id>)
    requires zone.id !in t.zones
    ensures LoadIndex(AssignZone(t, zone), zone.id, saved, order) == AssignZone(t, zone)
  {
  }

  // ---------- when the index follows the zone ----------

  /** A live entity moves to a point where the index does not have it yet.  Afterwards the index has it
      there if and only if the index holds the zone's own grid. */
  lemma IndexFollowsIff(w: World, x: Id, p: Vec)
    requires Inv(w) && x in w.entities && w.entityZone[x] in w.aoiIndex
    requires var g := w.IndexGrid(w.entityZone[x]); !(x in g.positions && g.positions[x] == p)
    ensures var g := MoveEntity(w, x, p).IndexGrid(w.entityZone[x]);
            x in g.positions && g.positions[x] == p <==> OwnIndex(w, w.entityZone[x])
  {
    var z := w.entityZone[x];
    assert LiveOk(w, x);
    EnterPositions(w.GridOf(z), x, p);
    MovedGrid(w, x, p);
  }

  lemma MovedGrid(w: World, x: Id, p: Vec)
    requires x in w.entities && x in w.entityZone && w.entityZone[x] in w.zones
    ensures var w', z := MoveEntity(w, x, p), w.entityZone[x];
            z in w'.zones && w'.zones[z].grid == w.zones[z].grid.Move(x, p) && w'.aoiIndex == w.aoiIndex
  {
  }

  /** Reading the history backwards: zone `z` was assigned, as a zone nobody had, and not released. */
  ghost predicate WasAssigned(ops: seq<Op>, z: ZoneId) {
    ops != [] &&
    var front, op := ops[..|ops| - 1], ops[|ops| - 1];
    if op.Assign? && op.zone.id == z && z !in Run(Start(), front).zones then true
    else if op.Release? && op.z == z then false
    else WasAssigned(front, z)
  }

  /** Setting the indexed grid does not change what the index holds it as. */
  lemma GridSetKeepsIndex(w: World, y: ZoneId, g: Grid, z: ZoneId)
    ensures OwnIndex(w.WithIndexGrid(y, g), z) <==> OwnIndex(w, z)
  {
    if y !in w.aoiIndex || w.aoiIndex[y].OfZone? { SetOwn(w, y, g); } else { SetDetached(w, y, g); }
  }

  lemma SetOwn(w: World, y: ZoneId, g: Grid)
    requires y in w.aoiIndex ==> w.aoiIndex[y].OfZone?
    ensures w.WithIndexGrid(y, g).aoiIndex == w.aoiIndex
  {
  }

  lemma SetDetached(w: World, y: ZoneId, g: Grid)
    requires y in w.aoiIndex && w.aoiIndex[y].Detached?
    ensures w.WithIndexGrid(y, g).aoiIndex == w.aoiIndex[y := Detached(g)]
  {
  }

  lemma EnterKeepsIndex(w: World, y: ZoneId, x: Id, p: Vec, now: int, z: ZoneId)
    ensures OwnIndex(GhostEnter(w, y, x, p, now), z) <==> OwnIndex(w, z)
  {
    GridSetKeepsIndex(w, y, w.IndexGrid(y).Enter(RemoteGhost(x), p), z);
  }

  lemma LeaveKeepsIndex(w: World, y: ZoneId, x: Id, z: ZoneId)
    ensures OwnIndex(GhostLeave(w, y, x), z) <==> OwnIndex(w, z)
  {
    GridSetKeepsIndex(w, y, w.IndexGrid(y).Leave(RemoteGhost(x)), z);
  }

  lemma UpdateKeepsIndex(w: World, y: ZoneId, x: Id, p: Vec, now: int, z: ZoneId)
    ensures OwnIndex(GhostUpdate(w, y, x, p, now), z) <==> OwnIndex(w, z)
  {
    GridSetKeepsIndex(w, y, w.IndexGrid(y).Move(RemoteGhost(x), p), z);
  }

  lemma ReportKeepsIndex(w: World, y: ZoneId, n: ZoneId, x: Id, p: Vec, now: int, z: ZoneId)
    ensures OwnIndex(ReportGhost(w, y, n, x, p, now), z) <==> OwnIndex(w, z)
  {
    var g, gid := w.IndexGrid(y), RemoteGhost(x);
    GridSetKeepsIndex(w, y, g.Enter(gid, p), z);
    GridSetKeepsIndex(w, y, g.Move(gid, p), z);
  }

  lemma TimeoutKeepsIndex(w: World, y: ZoneId, gid: Id, now: int, z: ZoneId)
    ensures OwnIndex(TimeoutGhost(w, y, gid, now), z) <==> OwnIndex(w, z)
  {
    GridSetKeepsIndex(w, y, w.IndexGrid(y).Leave(gid), z);
  }

  lemma SweepKeepsIndex(w: World, x: Id, now: int, z: ZoneId)
    ensures OwnIndex(SweepSession(w, x, now), z) <==> OwnIndex(w, z)
  {
    if x in w.entityZone { GridSetKeepsIndex(w, w.entityZone[x], w.IndexGrid(w.entityZone[x]).Leave(x), z); }
  }

  lemma AssignIndex(w: World, zone: Zone, z: ZoneId)
    ensures OwnIndex(AssignZone(w, zone), z) <==> (zone.id == z && z !in w.zones) || OwnIndex(w, z)
  {
  }

  lemma ReleaseIndex(w: World, y: ZoneId, z: ZoneId)
    requires OwnIndex(w, z) ==> z in w.zones
    ensures OwnIndex(ReleaseZone(w, y), z) <==> OwnIndex(w, z) && y != z
  {
  }

  lemma LoadKeepsIndex(w: World, y: ZoneId, saved: Option<GridHistory.Saved>, order: seq<Id>, z: ZoneId)
    ensures OwnIndex(LoadIndex(w, y, saved, order), z) <==> OwnIndex(w, z)
  {
  }

  lemma OtherOpsKeepIndex(w: World, op: Op)
    requires op.Add? || op.Remove? || op.MoveTo? || op.DetectOne? || op.ObserveOne? || op.ExpireOne? || op.Disconnect? || op.Reconnect? || op.Take?
    ensures Step(w, op).aoiIndex == w.aoiIndex
  {
  }

  lemma StepOwnIndex(w: World, op: Op, z: ZoneId)
    requires ZonesOk(w)
    ensures OwnIndex(Step(w, op), z)
       <==> (op.Assign? && op.zone.id == z && z !in w.zones) || (OwnIndex(w, z) && !(op.Release? && op.z == z))
  {
    if z in w.aoiIndex { assert IndexOk(w, z); }
    match op
    case Assign(zone) => AssignIndex(w, zone, z);
    case Release(y) => ReleaseIndex(w, y, z);
    case Load(y, saved, order) => LoadKeepsIndex(w, y, saved, order, z);
    case SweepOne(x, now) => SweepKeepsIndex(w, x, now, z);
    case Report(y, n, x, p, now) => ReportKeepsIndex(w, y, n, x, p, now, z);
    case Timeout(y, gid, now) => TimeoutKeepsIndex(w, y, gid, now, z);
    case PeerEnter(y, x, p, now) => EnterKeepsIndex(w, y, x, p, now, z);
    case PeerLeave(y, x) => LeaveKeepsIndex(w, y, x, z);
    case PeerUpdate(y, x, p, now) => UpdateKeepsIndex(w, y, x, p, now, z);
    case _ => OtherOpsKeepIndex(w, op);
  }

  /** In every run the index holds a zone's own grid exactly if the zone was assigned. */
  lemma {:induction false} OwnIndexIffAssigned(ops: seq<Op>, z: ZoneId)
    requires AllEnabled(Start(), ops)
    ensures OwnIndex(Run(Start(), ops), z) <==> WasAssigned(ops, z)
    decreases |ops|
  {
    if ops != [] {
      var front := ops[..|ops| - 1];
      FrontEnabled(Start(), ops);
      OwnIndexIffAssigned(front, z);
      RunKeeps(Start(), front);
      StepOwnIndex(Run(Start(), front), ops[|ops| - 1], z);
    }
  }

  /** Without the assignment the index gets a grid of its own that no later move reaches: it keeps
      answering with the positions of the snapshot, while the zone's grid follows the entity. */
  lemma UnassignedLoadGoesStale(t: World, z: ZoneId, saved: GridHistory.Saved, order: seq<Id>, s: Snap, e: Entity, p: Vec)
    requires z != "" && z !in t.zones && z !in t.aoiIndex && Visits(order, saved.positions.Keys)
    ensures var t1 := LoadIndex(t, z, Some(saved), order);
            var t2 := MoveEntity(AddEntity(t1, e, Arrival(s, z)), s.id, p);
            && t2.IndexGrid(z).positions == saved.positions
            && s.id in t2.GridOf(z).positions && t2.GridOf(z).positions[s.id] == p
  {
    var t1 := LoadIndex(t, z, Some(saved), order);
    var t2 := AddEntity(t1, e, Arrival(s, z));
    GridHistory.RebuildAll(saved, order);
    assert t2.aoiIndex[z] == Detached(GridHistory.Rebuild(saved, order));
    EnterPositions(t2.GridOf(z), s.id, p);
    assert MoveEntity(t2, s.id, p).zones == t2.WithGrid(z, t2.GridOf(z).Move(s.id, p)).zones;
  }
}
