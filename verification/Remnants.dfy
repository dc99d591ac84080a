/** What a swept entity leaves behind: how long it stays in sight, who goes on observing, and runs
    from an empty server that show it. */
module Remnants {
  import opened Ids
  import opened Grids
  import opened Objects
  import opened Worlds
  import opened Invariants
  import opened Visibility
  import opened Sessions

  // ---------- the entry of an id that is not live ----------

  /** The entry of `x` is as before, and no stray listing of it has appeared. */
  ghost predicate SameEntry(g: Grid, h: Grid, x: Id) {
    && (x in h.positions <==> x in g.positions) && (x in g.positions ==> h.positions[x] == g.positions[x])
    && (g.CleanFor(x) ==> h.CleanFor(x))
  }

  lemma OthersLeaveEntry(g: Grid, id: Id, p: Vec, x: Id)
    requires g.Valid() && id != x
    ensures SameEntry(g, g.Enter(id, p), x) && SameEntry(g, g.Leave(id), x) && SameEntry(g, g.Move(id, p), x)
  {
    EnterKeeps(g, id, p);
    LeaveKeeps(g, id);
    MoveKeeps(g, id, p);
    EnterPositions(g, id, p);
  }

  /** Zone `z` is still there, and its grid has the same entry of `x`. */
  ghost predicate Keeps(w: World, w': World, z: ZoneId, x: Id) {
    z in w.zones && z in w'.zones && SameEntry(w.zones[z].grid, w'.zones[z].grid, x)
  }

  lemma SetGridKeeps(w: World, y: ZoneId, h: Grid, z: ZoneId, x: Id)
    requires z in w.zones && (y in w.zones ==> SameEntry(w.zones[y].grid, h, x))
    ensures Keeps(w, w.WithGrid(y, h), z, x)
  {
  }

  lemma SetIndexKeeps(w: World, y: ZoneId, h: Grid, z: ZoneId, x: Id)
    requires z in w.zones && SameEntry(w.IndexGrid(y), h, x)
    ensures Keeps(w, w.WithIndexGrid(y, h), z, x)
  {
    if !(y in w.aoiIndex && w.aoiIndex[y].Detached?) { SetGridKeeps(w, y, h, z, x); }
  }

  lemma SameZonesKeep(w: World, w': World, z: ZoneId, x: Id)
    requires z in w.zones && z in w'.zones && w'.zones[z].grid == w.zones[z].grid
    ensures Keeps(w, w', z, x)
  {
  }

  lemma AddKeepsEntry(w: World, e: Entity, v: EntityVal, z: ZoneId, x: Id)
    requires ZonesOk(w) && z in w.zones && v.id != x
    ensures Keeps(w, AddEntity(w, e, v), z, x)
  {
    assert ZoneOk(w, z);
    AddGrids(w, e, v, z);
    OthersLeaveEntry(w.zones[z].grid, v.id, v.position, x);
  }

  lemma RemoveKeepsEntry(w: World, y: Id, z: ZoneId, x: Id)
    requires ZonesOk(w) && z in w.zones && x !in w.entityZone
    ensures Keeps(w, RemoveEntity(w, y), z, x)
  {
    if y in w.entityZone {
      assert ZoneOk(w, z);
      RemovedGrid(w, y, z);
      OthersLeaveEntry(w.zones[z].grid, y, ORIGIN, x);
    }
  }

  lemma RemovedGrid(w: World, y: Id, z: ZoneId)
    requires y in w.entityZone && z in w.zones
    ensures z in RemoveEntity(w, y).zones
    ensures RemoveEntity(w, y).zones[z].grid == if z == w.entityZone[y] then w.zones[z].grid.Leave(y) else w.zones[z].grid
  {
    var home := w.entityZone[y];
    if home in w.zones {
      RemovedSim(w, y, home);
      CutGrid(w.zones, RemoveEntity(w, y).zones, home, RemoveEntity(w, y).zones[home], z);
    }
  }

  lemma RemovedSim(w: World, y: Id, home: ZoneId)
    requires y in w.entityZone && w.entityZone[y] == home && home in w.zones
    ensures var sim := w.zones[home].(entities := w.zones[home].entities - {y}, grid := w.zones[home].grid.Leave(y));
            RemoveEntity(w, y).zones == w.zones[home := sim]
  {
  }

  lemma CutGrid(zones: map<ZoneId, ZoneSim>, zones': map<ZoneId, ZoneSim>, home: ZoneId, sim: ZoneSim, z: ZoneId)
    requires home in zones && zones' == zones[home := sim] && z in zones
    ensures z in zones' && zones'[z].grid == if z == home then sim.grid else zones[z].grid
  {
  }

  lemma MoveKeepsEntry(w: World, y: Id, p: Vec, z: ZoneId, x: Id)
    requires ZonesOk(w) && Agree(w) && z in w.zones && x !in w.entities
    ensures Keeps(w, MoveEntity(w, y, p), z, x)
  {
    assert ZoneOk(w, z);
    if y in w.entities {
      OthersLeaveEntry(w.zones[z].grid, y, p, x);
      MovedGrid(w, y, p, z);
    }
  }

  lemma MovedGrid(w: World, y: Id, p: Vec, z: ZoneId)
    requires y in w.entities && y in w.entityZone && z in w.zones
    ensures z in MoveEntity(w, y, p).zones
    ensures MoveEntity(w, y, p).zones[z].grid == if z == w.entityZone[y] then w.zones[z].grid.Move(y, p) else w.zones[z].grid
  {
  }

  lemma DetectKeepsEntry(w: World, y: ZoneId, id: Id, now: int, z: ZoneId, x: Id)
    requires ZonesOk(w) && z in w.zones && IsReal(x)
    ensures Keeps(w, Detect(w, y, id, now), z, x)
  {
    if Detect(w, y, id, now) != w {
      assert ZoneOk(w, y);
      OthersLeaveEntry(w.zones[y].grid, LocalGhost(id), w.entityAOI[id].lastPosition, x);
      SetGridKeeps(w, y, w.zones[y].grid.Enter(LocalGhost(id), w.entityAOI[id].lastPosition), z, x);
    }
  }

  lemma ExpireKeepsEntry(w: World, gid: Id, now: int, z: ZoneId, x: Id)
    requires ZonesOk(w) && GhostsOk(w) && z in w.zones && IsReal(x)
    ensures Keeps(w, ExpireGhost(w, gid, now), z, x)
  {
    if ExpireGhost(w, gid, now) != w {
      var y := w.ghosts[gid].originZone;
      if y in w.zones {
        assert ZoneOk(w, y);
        OthersLeaveEntry(w.zones[y].grid, gid, ORIGIN, x);
      }
      SetGridKeeps(w, y, w.GridOf(y).Leave(gid), z, x);
    }
  }

  lemma SweepKeepsEntry(w: World, y: Id, now: int, z: ZoneId, x: Id)
    requires ZonesOk(w) && z in w.zones && x !in w.entityZone
    ensures Keeps(w, SweepSession(w, y, now), z, x)
  {
    if Due(w, y, now) && y in w.entityZone && w.entityZone[y] in w.aoiIndex {
      var home := w.entityZone[y];
      ZoneGridValid(w, home);
      OthersLeaveEntry(w.IndexGrid(home), y, ORIGIN, x);
      SetIndexKeeps(w, home, w.IndexGrid(home).Leave(y), z, x);
    }
  }

  lemma PlaceKeepsEntry(w: World, y: ZoneId, gid: Id, p: Vec, z: ZoneId, x: Id)
    requires ZonesOk(w) && z in w.zones && IsReal(x) && !IsReal(gid)
    ensures var g := w.IndexGrid(y);
            && Keeps(w, w.WithIndexGrid(y, g.Enter(gid, p)), z, x) && Keeps(w, w.WithIndexGrid(y, g.Leave(gid)), z, x)
            && Keeps(w, w.WithIndexGrid(y, g.Move(gid, p)), z, x)
  {
    var g := w.IndexGrid(y);
    ZoneGridValid(w, y);
    OthersLeaveEntry(g, gid, p, x);
    SetIndexKeeps(w, y, g.Enter(gid, p), z, x);
    SetIndexKeeps(w, y, g.Leave(gid), z, x);
    SetIndexKeeps(w, y, g.Move(gid, p), z, x);
  }

  lemma ReportKeepsEntry(w: World, y: ZoneId, n: ZoneId, id: Id, p: Vec, now: int, z: ZoneId, x: Id)
    requires ZonesOk(w) && z in w.zones && IsReal(x)
    ensures Keeps(w, ReportGhost(w, y, n, id, p, now), z, x)
  {
    PlaceKeepsEntry(w, y, RemoteGhost(id), p, z, x);
  }

  lemma TimeoutKeepsEntry(w: World, y: ZoneId, gid: Id, now: int, z: ZoneId, x: Id)
    requires ZonesOk(w) && GhostsOk(w) && z in w.zones && IsReal(x)
    ensures Keeps(w, TimeoutGhost(w, y, gid, now), z, x)
  {
    if TimeoutGhost(w, y, gid, now) != w {
      assert MirrorOk(w, y, gid);
      PlaceKeepsEntry(w, y, gid, ORIGIN, z, x);
    }
  }

  lemma PeerEnterKeepsEntry(w: World, y: ZoneId, id: Id, p: Vec, now: int, z: ZoneId, x: Id)
    requires ZonesOk(w) && z in w.zones && IsReal(x)
    ensures Keeps(w, GhostEnter(w, y, id, p, now), z, x)
  {
    PlaceKeepsEntry(w, y, RemoteGhost(id), p, z, x);
  }

  lemma PeerLeaveKeepsEntry(w: World, y: ZoneId, id: Id, z: ZoneId, x: Id)
    requires ZonesOk(w) && z in w.zones && IsReal(x)
    ensures Keeps(w, GhostLeave(w, y, id), z, x)
  {
    PlaceKeepsEntry(w, y, RemoteGhost(id), ORIGIN, z, x);
  }

  lemma PeerUpdateKeepsEntry(w: World, y: ZoneId, id: Id, p: Vec, now: int, z: ZoneId, x: Id)
    requires ZonesOk(w) && z in w.zones && IsReal(x)
    ensures Keeps(w, GhostUpdate(w, y, id, p, now), z, x)
  {
    PlaceKeepsEntry(w, y, RemoteGhost(id), p, z, x);
  }

  lemma PeerKeepsEntry(w: World, op: Op, z: ZoneId, x: Id)
    requires ZonesOk(w) && z in w.zones && IsReal(x) && (op.PeerEnter? || op.PeerLeave? || op.PeerUpdate?)
    ensures Keeps(w, Step(w, op), z, x)
  {
    if op.PeerEnter? { PeerEnterKeepsEntry(w, op.z, op.x, op.p, op.now, z, x); }
    else if op.PeerLeave? { PeerLeaveKeepsEntry(w, op.z, op.x, z, x); }
    else { PeerUpdateKeepsEntry(w, op.z, op.x, op.p, op.now, z, x); }
  }

  lemma MirrorKeepsEntry(w: World, op: Op, z: ZoneId, x: Id)
    requires ZonesOk(w) && GhostsOk(w) && z in w.zones && IsReal(x) && (op.Report? || op.Timeout?)
    ensures Keeps(w, Step(w, op), z, x)
  {
    match op
    case Report(y, n, id, p, now) => ReportKeepsEntry(w, y, n, id, p, now, z, x);
    case Timeout(y, gid, now) => TimeoutKeepsEntry(w, y, gid, now, z, x);
  }

  lemma EntityKeepsEntry(w: World, op: Op, z: ZoneId, x: Id)
    requires ZonesOk(w) && Agree(w) && z in w.zones && x !in w.entities
    requires op.Remove? || op.MoveTo? || op.SweepOne? || (op.Add? && op.v.id != x)
    ensures Keeps(w, Step(w, op), z, x)
  {
    match op
    case Add(e, v) => AddKeepsEntry(w, e, v, z, x);
    case Remove(y) => RemoveKeepsEntry(w, y, z, x);
    case MoveTo(y, p) => MoveKeepsEntry(w, y, p, z, x);
    case SweepOne(y, now) => SweepKeepsEntry(w, y, now, z, x);
  }

  lemma QuietKeepsEntry(w: World, op: Op, z: ZoneId, x: Id)
    requires z in w.zones
    requires op.Assign? || op.Release? || op.ObserveOne? || op.Disconnect? || op.Reconnect? || op.Load? || op.Take?
    requires op.Release? ==> op.z != z
    ensures Keeps(w, Step(w, op), z, x)
  {
    match op
    case Assign(zone) => SameZonesKeep(w, AssignZone(w, zone), z, x);
    case Release(y) => SameZonesKeep(w, ReleaseZone(w, y), z, x);
    case _ => SameZonesKeep(w, Step(w, op), z, x);
  }

  // ---------- over runs ----------

  /** The step brings `x` back, or ends zone `z`. */
  ghost predicate EndsStay(op: Op, z: ZoneId, x: Id) {
    (op.Add? && op.v.id == x) || (op.Release? && op.z == z)
  }

  lemma StepKeepsEntry(w: World, op: Op, z: ZoneId, x: Id)
    requires Inv(w) && z in w.zones && IsReal(x) && x !in w.entities && !EndsStay(op, z, x)
    ensures Keeps(w, Step(w, op), z, x)
  {
    if op.Add? || op.Remove? || op.MoveTo? || op.SweepOne? { EntityKeepsEntry(w, op, z, x); }
    else if op.PeerEnter? || op.PeerLeave? || op.PeerUpdate? { PeerKeepsEntry(w, op, z, x); }
    else if op.Report? || op.Timeout? { MirrorKeepsEntry(w, op, z, x); }
    else if op.DetectOne? { DetectKeepsEntry(w, op.z, op.x, op.now, z, x); }
    else if op.ExpireOne? { ExpireKeepsEntry(w, op.gid, op.now, z, x); }
    else { QuietKeepsEntry(w, op, z, x); }
  }

  lemma StaysAway(w: World, op: Op, x: Id)
    requires x !in w.entities && !(op.Add? && op.v.id == x)
    ensures x !in Step(w, op).entities
  {
    match op
    case Add(_, _) =>
    case Release(_) =>
    case Remove(_) =>
    case SweepOne(_, _) =>
    case MoveTo(_, _) =>
    case _ =>
  }

  /** As long as `x` is not added again and zone `z` is not released, the grid keeps its entry. */
  lemma {:induction false} RunKeepsEntry(w: World, ops: seq<Op>, z: ZoneId, x: Id)
    requires Inv(w) && AllEnabled(w, ops) && z in w.zones && IsReal(x) && x !in w.entities
    requires forall op :: op in ops ==> !EndsStay(op, z, x)
    ensures Inv(Run(w, ops)) && x !in Run(w, ops).entities && Keeps(w, Run(w, ops), z, x)
    decreases |ops|
  {
    if ops != [] {
      var front, op := ops[..|ops| - 1], ops[|ops| - 1];
      FrontEnabled(w, ops);
      RunKeepsEntry(w, front, z, x);
      StepKeeps(Run(w, front), op);
      StaysAway(Run(w, front), op, x);
      StepKeepsEntry(Run(w, front), op, z, x);
    }
  }

  // ---------- how long a swept entity stays in sight ----------

  /** After the sweep: gone without trace if the zone's own grid is indexed, and otherwise left in the
      grid at the position `p`. */
  ghost predicate Left(w: World, z: ZoneId, x: Id, p: Vec, indexed: bool) {
    && z in w.zones && x !in w.entities
    && var g := w.zones[z].grid;
    if indexed then x !in g.positions && g.CleanFor(x) else x in g.positions && g.positions[x] == p
  }

  lemma SweepLeft(w: World, x: Id, now: int)
    requires Inv(w) && x in w.entities && Due(w, x, now) && w.GridOf(w.entityZone[x]).CleanFor(x)
    ensures var z := w.entityZone[x];
            IsReal(x) && Left(SweepSession(w, x, now), z, x, w.Obj(w.entities[x]).position, OwnIndex(w, z))
  {
    assert LiveOk(w, x);
    var z := w.entityZone[x];
    assert ZoneOk(w, z);
    if OwnIndex(w, z) {
      LeaveKeeps(w.zones[z].grid, x);
      EnterPositions(w.zones[z].grid, x, ORIGIN);
    }
  }

  lemma LeftKept(w: World, w': World, z: ZoneId, x: Id, p: Vec, indexed: bool)
    requires Left(w, z, x, p, indexed) && Keeps(w, w', z, x) && x !in w'.entities
    ensures Left(w', z, x, p, indexed)
  {
  }

  /** The position of the entry zone `z` keeps for `y`. */
  ghost function EntryPosition(w: World, z: ZoneId, y: Id): Vec
    requires z in w.zones && y in w.zones[z].entities
  {
    w.Obj(w.zones[z].entities[y]).position
  }

  lemma LeftInSight(w: World, z: ZoneId, x: Id, p: Vec, indexed: bool, y: Id)
    requires ZonesOk(w) && Left(w, z, x, p, indexed) && y in w.zones[z].entities
    ensures x in w.Surroundings(z, y) <==> !indexed && DistSq(p, EntryPosition(w, z, y)) <= AOI_RADIUS * AOI_RADIUS
  {
    assert ZoneOk(w, z);
    StandardReach(w.zones[z].grid);
    if indexed {
      CleanRange(w.zones[z].grid, EntryPosition(w, z, y), AOI_RADIUS, x);
    } else {
      PositionedRange(w.zones[z].grid, EntryPosition(w, z, y), AOI_RADIUS, x);
    }
  }

  lemma LeftTold(w: World, z: ZoneId, x: Id, p: Vec, indexed: bool, y: Id, spawns: seq<Id>, despawns: seq<Id>)
    requires ZonesOk(w) && Left(w, z, x, p, indexed) && y in w.zones[z].entities && Enabled(w, ObserveOne(z, y, spawns, despawns))
    ensures var out := indexed || DistSq(p, EntryPosition(w, z, y)) > AOI_RADIUS * AOI_RADIUS;
            && (DespawnedBy(w, z, y, spawns, despawns, x) <==> x in w.Visible(y) && out)
            && (x in Observe(w, z, y, spawns, despawns).Visible(y) <==> !out)
  {
    LeftInSight(w, z, x, p, indexed, y);
    DespawnedIff(w, z, y, spawns, despawns, x);
  }

  lemma StillLeft(w: World, x: Id, now: int, ops: seq<Op>)
    requires Inv(w) && x in w.entities && Due(w, x, now) && w.GridOf(w.entityZone[x]).CleanFor(x)
    requires AllEnabled(SweepSession(w, x, now), ops) && forall op :: op in ops ==> !EndsStay(op, w.entityZone[x], x)
    ensures var w', z, p := Run(SweepSession(w, x, now), ops), w.entityZone[x], w.Obj(w.entities[x]).position;
            ZonesOk(w') && Left(w', z, x, p, OwnIndex(w, z))
  {
    var w0, z, p := SweepSession(w, x, now), w.entityZone[x], w.Obj(w.entities[x]).position;
    SweepKeeps(w, x, now);
    SweepLeft(w, x, now);
    RunKeepsEntry(w0, ops, z, x);
    LeftKept(w0, Run(w0, ops), z, x, p, OwnIndex(w, z));
  }

  /** After the sweep of `x`, over every run that does not add it again or release its zone: an
      observation in that zone tells of its going if and only if the observer was seeing it, and the
      zone's own grid was indexed or the observer's entry is out of range of the place where `x` was
      swept; and it is seen afterwards if and only if neither is so. */
  lemma SweptIsToldIff(w: World, x: Id, now: int, ops: seq<Op>, y: Id, spawns: seq<Id>, despawns: seq<Id>)
    requires Inv(w) && x in w.entities && Due(w, x, now) && w.GridOf(w.entityZone[x]).CleanFor(x)
    requires AllEnabled(SweepSession(w, x, now), ops) && forall op :: op in ops ==> !EndsStay(op, w.entityZone[x], x)
    requires var w', z := Run(SweepSession(w, x, now), ops), w.entityZone[x];
             z in w'.zones && y in w'.zones[z].entities && Enabled(w', ObserveOne(z, y, spawns, despawns))
    ensures var w', z, p := Run(SweepSession(w, x, now), ops), w.entityZone[x], w.Obj(w.entities[x]).position;
            var out := OwnIndex(w, z) || DistSq(p, EntryPosition(w', z, y)) > AOI_RADIUS * AOI_RADIUS;
            && (DespawnedBy(w', z, y, spawns, despawns, x) <==> x in w'.Visible(y) && out)
            && (x in Observe(w', z, y, spawns, despawns).Visible(y) <==> !out)
  {
    var w', z, p := Run(SweepSession(w, x, now), ops), w.entityZone[x], w.Obj(w.entities[x]).position;
    StillLeft(w, x, now, ops);
    LeftTold(w', z, x, p, OwnIndex(w, z), y, spawns, despawns);
  }
}
