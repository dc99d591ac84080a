/** Interest management end to end: what a client has heard, replayed, is what it should see. */
module Visibility {
  import opened Ids
  import opened Grids
  import opened Objects
  import opened Worlds
  import opened Invariants

  /** What keeps grids exact: an id is added only while it is not live, and the disconnect sweep
      removes an entity only from a zone whose own grid is indexed. */
  ghost predicate Disciplined(w: World, op: Op) {
    match op
    case Add(_, v) => v.id !in w.entities
    case SweepOne(x, now) => Due(w, x, now) && x in w.entityZone ==> OwnIndex(w, w.entityZone[x])
    case _ => true
  }

  ghost predicate AllDisciplined(w: World, ops: seq<Op>) {
    forall i :: 0 <= i < |ops| ==> Disciplined(Run(w, ops[..i]), ops[i])
  }

  // ---------- grids without leftovers of real ids ----------

  ghost predicate RealsClean(g: Grid) {
    forall x :: IsReal(x) ==> g.CleanFor(x)
  }

  lemma EnterClean(g: Grid, id: Id, p: Vec)
    requires g.Valid() && RealsClean(g) && (IsReal(id) ==> id !in g.positions)
    ensures RealsClean(g.Enter(id, p))
  {
    EnterKeeps(g, id, p);
  }

  lemma LeaveClean(g: Grid, id: Id)
    requires g.Valid() && RealsClean(g)
    ensures RealsClean(g.Leave(id))
  {
    LeaveKeeps(g, id);
  }

  lemma MoveClean(g: Grid, id: Id, p: Vec)
    requires g.Valid() && RealsClean(g)
    ensures RealsClean(g.Move(id, p))
  {
    MoveKeeps(g, id, p);
  }

  /** The grid of zone `z` holds no real id but its own live entities, each listed once. */
  ghost predicate Settled(w: World, z: ZoneId)
    requires z in w.zones
  {
    && RealsClean(w.zones[z].grid)
    && forall x :: x in w.zones[z].grid.positions && IsReal(x) ==> x in w.entityZone && w.entityZone[x] == z
  }

  ghost predicate AllSettled(w: World) {
    forall z :: z in w.zones ==> Settled(w, z)
  }

  /** Grids of all zones are the old ones, except that the grid of `z` may have changed at a ghost. */
  lemma GhostSettled(w: World, w': World, z: ZoneId, id: Id)
    requires AllSettled(w) && GridStep(w, w', z, id) && !IsReal(id) && w'.entityZone == w.entityZone
    requires z in w.zones ==> RealsClean(w'.zones[z].grid)
    ensures AllSettled(w')
  {
    forall y | y in w'.zones ensures Settled(w', y) {
      assert Settled(w, y);
      if y == z {
        forall x | x in w'.zones[z].grid.positions && IsReal(x) ensures x in w.entityZone && w.entityZone[x] == z {
          TouchesOther(w.zones[z].grid, w'.zones[z].grid, id, x);
        }
      }
    }
  }

  lemma MirrorSettled(w: World, z: ZoneId, h: Grid, store: map<Id, GhostEntry>, gid: Id)
    requires ZonesOk(w) && AllSettled(w) && Mirrors(w, z) && !IsReal(gid) && Touches(w.IndexGrid(z), h, gid)
    requires RealsClean(w.IndexGrid(z)) ==> RealsClean(h)
    ensures AllSettled(Mirror(w, z, h, store))
  {
    var w' := Mirror(w, z, h, store);
    PlaceGhost(w, w', z, gid, h);
    if z in w.zones { assert Settled(w, z); }
    GhostSettled(w, w', z, gid);
  }

  lemma PutSettled(w: World, z: ZoneId, gid: Id, p: Vec, enter: bool, store: map<Id, GhostEntry>)
    requires ZonesOk(w) && AllSettled(w) && Mirrors(w, z) && !IsReal(gid)
    ensures AllSettled(Mirror(w, z, if enter then w.IndexGrid(z).Enter(gid, p) else w.IndexGrid(z).Move(gid, p), store))
  {
    var g := w.IndexGrid(z);
    ZoneGridValid(w, z);
    if RealsClean(g) { EnterClean(g, gid, p); MoveClean(g, gid, p); }
    if enter {
      TouchEnter(g, gid, p);
      MirrorSettled(w, z, g.Enter(gid, p), store, gid);
    } else {
      TouchMove(g, gid, p);
      MirrorSettled(w, z, g.Move(gid, p), store, gid);
    }
  }

  lemma DropSettled(w: World, z: ZoneId, gid: Id, store: map<Id, GhostEntry>)
    requires ZonesOk(w) && AllSettled(w) && Mirrors(w, z) && !IsReal(gid)
    ensures AllSettled(Mirror(w, z, w.IndexGrid(z).Leave(gid), store))
  {
    var g := w.IndexGrid(z);
    ZoneGridValid(w, z);
    if RealsClean(g) { LeaveClean(g, gid); }
    TouchLeave(g, gid);
    MirrorSettled(w, z, g.Leave(gid), store, gid);
  }

  lemma ReportSettled(w: World, z: ZoneId, n: ZoneId, x: Id, p: Vec, now: int)
    requires ZonesOk(w) && AllSettled(w)
    ensures AllSettled(ReportGhost(w, z, n, x, p, now))
  {
    if Mirrors(w, z) && z in w.zones && w.zones[z].zone.Some? {
      ReportIsMirror(w, z, n, x, p, now);
      PutSettled(w, z, RemoteGhost(x), p, RemoteGhost(x) !in w.ghostStore[z],
                 w.ghostStore[z][RemoteGhost(x) := GhostEntry(true, x, n, p, now + GHOST_TTL * 6)]);
    }
  }

  lemma PeerSettled(w: World, z: ZoneId, x: Id, p: Vec, now: int)
    requires ZonesOk(w) && AllSettled(w)
    ensures AllSettled(GhostEnter(w, z, x, p, now)) && AllSettled(GhostLeave(w, z, x))
    ensures AllSettled(GhostUpdate(w, z, x, p, now))
  {
    var gid := RemoteGhost(x);
    if Mirrors(w, z) {
      PutSettled(w, z, gid, p, true, w.ghostStore[z][gid := GhostEntry(true, x, z, p, now + GHOST_TTL * 6)]);
      DropSettled(w, z, gid, w.ghostStore[z] - {gid});
      if gid in w.ghostStore[z] {
        var entry := w.ghostStore[z][gid].(position := p, expiresAt := now + GHOST_TTL * 6);
        PutSettled(w, z, gid, p, false, w.ghostStore[z][gid := entry]);
      }
    }
  }

  lemma TimeoutSettled(w: World, z: ZoneId, gid: Id, now: int)
    requires ZonesOk(w) && GhostsOk(w) && AllSettled(w)
    ensures AllSettled(TimeoutGhost(w, z, gid, now))
  {
    if Mirrors(w, z) && gid in w.ghostStore[z] {
      assert MirrorOk(w, z, gid);
      DropSettled(w, z, gid, w.ghostStore[z] - {gid});
    }
  }

  lemma DetectSettled(w: World, z: ZoneId, x: Id, now: int)
    requires Inv(w) && AllSettled(w)
    ensures AllSettled(Detect(w, z, x, now))
  {
    var w' := Detect(w, z, x, now);
    if w' != w {
      var id, p := LocalGhost(x), w.entityAOI[x].lastPosition;
      ZoneGridValid(w, z);
      TouchEnter(w.GridOf(z), id, p);
      assert Settled(w, z);
      EnterClean(w.GridOf(z), id, p);
      ZoneGridStep(w, z, w.GridOf(z).Enter(id, p), id);
      GhostSettled(w, w', z, id);
    }
  }

  lemma ExpireSettled(w: World, gid: Id, now: int)
    requires Inv(w) && AllSettled(w)
    ensures AllSettled(ExpireGhost(w, gid, now))
  {
    var w' := ExpireGhost(w, gid, now);
    if w' != w {
      var z := w.ghosts[gid].originZone;
      ZoneGridValid(w, z);
      TouchLeave(w.GridOf(z), gid);
      if z in w.zones { assert Settled(w, z); LeaveClean(w.GridOf(z), gid); }
      ZoneGridStep(w, z, w.GridOf(z).Leave(gid), gid);
      GhostSettled(w, w', z, gid);
    }
  }

  // ---------- entities ----------

  lemma EnsureSettled(w: World, z: ZoneId)
    requires AllSettled(w)
    ensures AllSettled(EnsureZone(w, z))
  {
    var w' := EnsureZone(w, z);
    forall y | y in w'.zones ensures Settled(w', y) { assert y in w.zones ==> Settled(w, y); }
  }

  lemma AddSettled(w: World, e: Entity, v: EntityVal)
    requires ZonesOk(w) && AllSettled(w) && w.entities.Keys == w.entityZone.Keys
    requires Enabled(w, Add(e, v)) && Disciplined(w, Add(e, v))
    ensures AllSettled(AddEntity(w, e, v))
  {
    var z := ZoneFor(v);
    if z in w.zones { assert ZoneOk(w, z); }
    EnsureSettled(w, z);
    AddEnsured(w, e, v);
    EnterSettled(EnsureZone(w, z), AddEntity(w, e, v), z, v.id, v.position);
  }

  lemma AddEnsured(w: World, e: Entity, v: EntityVal)
    ensures var z, w1, w' := ZoneFor(v), EnsureZone(w, ZoneFor(v)), AddEntity(w, e, v);
            && w'.entityZone == w1.entityZone[v.id := z] && z in w1.zones && w'.zones.Keys == w1.zones.Keys
            && w'.zones[z].grid == w1.zones[z].grid.Enter(v.id, v.position)
            && forall y :: y in w1.zones && y != z ==> w'.zones[y] == w1.zones[y]
  {
  }

  lemma EnterSettled(w: World, w': World, z: ZoneId, x: Id, p: Vec)
    requires AllSettled(w) && z in w.zones && w.zones[z].grid.Valid() && x !in w.entityZone && IsReal(x)
    requires w'.entityZone == w.entityZone[x := z] && w'.zones.Keys == w.zones.Keys
    requires w'.zones[z].grid == w.zones[z].grid.Enter(x, p) && forall y :: y in w.zones && y != z ==> w'.zones[y] == w.zones[y]
    ensures AllSettled(w')
  {
    assert Settled(w, z);
    EnterClean(w.zones[z].grid, x, p);
    EnterPositions(w.zones[z].grid, x, p);
    forall y | y in w'.zones ensures Settled(w', y) { assert Settled(w, y); }
  }

  /** Leaving: `x` goes from the grid of its zone and from the maps. */
  lemma LeaveSettled(w: World, w': World, z: ZoneId, x: Id)
    requires AllSettled(w) && (x in w.entityZone ==> w.entityZone[x] == z)
    requires w'.zones.Keys == w.zones.Keys && w'.entityZone == w.entityZone - {x}
    requires forall y :: y in w.zones && y != z ==> w'.zones[y] == w.zones[y]
    requires z in w.zones ==> ZoneOk(w, z) && w'.zones[z].grid == w.zones[z].grid.Leave(x)
    ensures AllSettled(w')
  {
    forall y | y in w'.zones ensures Settled(w', y) {
      assert Settled(w, y);
      if y == z {
        LeaveClean(w.zones[z].grid, x);
        EnterPositions(w.zones[z].grid, x, ORIGIN);
      }
    }
  }

  lemma RemoveSettled(w: World, x: Id)
    requires ZonesOk(w) && AllSettled(w)
    ensures AllSettled(RemoveEntity(w, x))
  {
    if x in w.entityZone {
      var z := w.entityZone[x];
      if z in w.zones { assert ZoneOk(w, z); }
      LeaveSettled(w, RemoveEntity(w, x), z, x);
    }
  }

  lemma SweepSettled(w: World, x: Id, now: int)
    requires ZonesOk(w) && AllSettled(w) && Disciplined(w, SweepOne(x, now))
    ensures AllSettled(SweepSession(w, x, now))
  {
    if SweepSession(w, x, now) != w {
      if x in w.entityZone { SweepLiveSettled(w, w.entityZone[x], x, now); }
      else { SweepGoneSettled(w, x, now); }
    }
  }

  lemma SweepLiveSettled(w: World, z: ZoneId, x: Id, now: int)
    requires ZonesOk(w) && AllSettled(w) && x in w.entityZone && w.entityZone[x] == z
    requires Due(w, x, now) && OwnIndex(w, z)
    ensures AllSettled(SweepSession(w, x, now))
  {
    assert IndexOk(w, z) && ZoneOk(w, z);
    LeaveSettled(w, SweepSession(w, x, now), z, x);
  }

  lemma SweepGoneSettled(w: World, x: Id, now: int)
    requires AllSettled(w) && x !in w.entityZone
    ensures AllSettled(SweepSession(w, x, now))
  {
    SameSettled(w, SweepSession(w, x, now));
  }

  lemma SameSettled(w: World, w': World)
    requires AllSettled(w) && w'.zones == w.zones && w'.entityZone == w.entityZone
    ensures AllSettled(w')
  {
    forall z | z in w'.zones ensures Settled(w', z) { assert Settled(w, z); }
  }

  lemma MoveSettled(w: World, x: Id, p: Vec)
    requires ZonesOk(w) && Agree(w) && AllSettled(w)
    ensures AllSettled(MoveEntity(w, x, p))
  {
    if x in w.entities {
      assert LiveOk(w, x) && ZoneOk(w, w.entityZone[x]);
      MoveLiveSettled(w, MoveEntity(w, x, p), w.entityZone[x], x, p);
    }
  }

  lemma MoveLiveSettled(w: World, w': World, z: ZoneId, x: Id, p: Vec)
    requires AllSettled(w) && z in w.zones && w.zones[z].grid.Valid() && x in w.zones[z].grid.positions
    requires w'.entityZone == w.entityZone
    requires w'.zones == w.zones[z := w.zones[z].(grid := w.zones[z].grid.Move(x, p))]
    ensures AllSettled(w')
  {
    forall y | y in w'.zones ensures Settled(w', y) {
      assert Settled(w, y);
      if y == z {
        MoveClean(w.zones[z].grid, x, p);
        EnterPositions(w.zones[z].grid, x, p);
      }
    }
  }

  lemma AssignSettled(w: World, zone: Zone)
    requires AllSettled(w)
    ensures AllSettled(AssignZone(w, zone))
  {
    var w' := AssignZone(w, zone);
    forall y | y in w'.zones ensures Settled(w', y) { assert y in w.zones ==> Settled(w, y); }
  }

  lemma ReleaseSettled(w: World, z: ZoneId)
    requires AllSettled(w)
    ensures AllSettled(ReleaseZone(w, z))
  {
    forall y | y in ReleaseZone(w, z).zones ensures Settled(ReleaseZone(w, z), y) { ReleaseLeavesSettled(w, z, y); }
  }

  lemma ReleaseLeavesSettled(w: World, z: ZoneId, y: ZoneId)
    requires y in w.zones && Settled(w, y) && y in ReleaseZone(w, z).zones
    ensures Settled(ReleaseZone(w, z), y)
  {
  }

  lemma GhostOpSettled(w: World, op: Op)
    requires ZonesOk(w) && GhostsOk(w) && AllSettled(w)
    requires op.Report? || op.Timeout? || op.PeerEnter? || op.PeerLeave? || op.PeerUpdate?
    ensures AllSettled(Step(w, op))
  {
    match op
    case Report(z, n, x, p, now) => ReportSettled(w, z, n, x, p, now);
    case Timeout(z, gid, now) => TimeoutSettled(w, z, gid, now);
    case PeerEnter(z, x, p, now) => PeerSettled(w, z, x, p, now);
    case PeerLeave(z, x) => PeerSettled(w, z, x, ORIGIN, 0);
    case PeerUpdate(z, x, p, now) => PeerSettled(w, z, x, p, now);
  }

  lemma StepSettled(w: World, op: Op)
    requires Inv(w) && AllSettled(w) && Enabled(w, op) && Disciplined(w, op)
    ensures AllSettled(Step(w, op))
  {
    match op
    case Assign(zone) => AssignSettled(w, zone);
    case Release(z) => ReleaseSettled(w, z);
    case Add(e, v) => AddSettled(w, e, v);
    case Remove(x) => RemoveSettled(w, x);
    case MoveTo(x, p) => MoveSettled(w, x, p);
    case DetectOne(z, x, now) => DetectSettled(w, z, x, now);
    case ExpireOne(gid, now) => ExpireSettled(w, gid, now);
    case SweepOne(x, now) => SweepSettled(w, x, now);
    case Load(z, saved, order) => SameSettled(w, LoadIndex(w, z, saved, order));
    case ObserveOne(z, x, spawns, despawns) => SameSettled(w, Observe(w, z, x, spawns, despawns));
    case Disconnect(x, now) => SameSettled(w, MarkDisconnected(w, x, now));
    case Reconnect(x) => SameSettled(w, MarkReconnected(w, x));
    case Take => SameSettled(w, TakeEvent(w));
    case _ => GhostOpSettled(w, op);
  }

  // ---------- the discipline is exact ----------

  lemma ReenterUnclean(g: Grid, x: Id, p: Vec)
    requires g.Valid() && g.CleanFor(x) && x in g.positions
    ensures !g.Enter(x, p).CleanFor(x)
  {
    var k := g.CellOf(g.positions[x]);
    EnterTimes(g, x, p, k, x);
    assert g.Times(k, x) == 1;
    assert g.Enter(x, p).positions[x] == p;
  }

  lemma AddLiveUnsettles(w: World, e: Entity, v: EntityVal)
    requires ZonesOk(w) && AllSettled(w) && v.id in w.entities && LiveOk(w, v.id)
    ensures !AllSettled(AddEntity(w, e, v))
  {
    var z := w.entityZone[v.id];
    assert Settled(w, z) && ZoneOk(w, z);
    AddGrids(w, e, v, z);
    TakenOverUnsettled(w, AddEntity(w, e, v), z, ZoneFor(v), v.id, v.position);
  }

  lemma AddGrids(w: World, e: Entity, v: EntityVal, z: ZoneId)
    requires z in w.zones
    ensures var w' := AddEntity(w, e, v);
            && w'.entityZone == w.entityZone[v.id := ZoneFor(v)] && z in w'.zones
            && w'.zones[z].grid == if z == ZoneFor(v) then w.zones[z].grid.Enter(v.id, v.position) else w.zones[z].grid
  {
  }

  lemma TakenOverUnsettled(w: World, w': World, z: ZoneId, y: ZoneId, x: Id, p: Vec)
    requires z in w.zones && z in w'.zones && w.zones[z].grid.Valid() && w.zones[z].grid.CleanFor(x) && IsReal(x)
    requires x in w.zones[z].grid.positions && x in w'.entityZone && w'.entityZone[x] == y
    requires w'.zones[z].grid == if z == y then w.zones[z].grid.Enter(x, p) else w.zones[z].grid
    ensures !AllSettled(w')
  {
    ReenterUnclean(w.zones[z].grid, x, p);
    assert !Settled(w', z);
  }

  lemma UnindexedSweepUnsettles(w: World, x: Id, now: int)
    requires Due(w, x, now) && x in w.entities && LiveOk(w, x) && !OwnIndex(w, w.entityZone[x])
    ensures !AllSettled(SweepSession(w, x, now))
  {
    var w', z := SweepSession(w, x, now), w.entityZone[x];
    assert w'.zones == w.zones;
    assert x in w'.zones[z].grid.positions && x !in w'.entityZone;
    assert !Settled(w', z);
  }

  /** From a settled state a step leads to a settled state if and only if it is disciplined. */
  lemma StepSettledIff(w: World, op: Op)
    requires Inv(w) && AllSettled(w) && Enabled(w, op)
    ensures AllSettled(Step(w, op)) <==> Disciplined(w, op)
  {
    if Disciplined(w, op) {
      StepSettled(w, op);
    } else if op.Add? {
      AddLiveUnsettles(w, op.e, op.v);
    } else {
      assert LiveOk(w, op.x);
      UnindexedSweepUnsettles(w, op.x, op.now);
    }
  }

  /** In a settled zone a range query finds, among real ids, exactly the zone's live entities in range. */
  lemma RangeOfSettled(w: World, z: ZoneId, c: Vec, r: real, y: Id)
    requires ZonesOk(w) && Agree(w) && z in w.zones && Settled(w, z) && IsReal(y) && -AOI_RADIUS <= r <= AOI_RADIUS
    ensures y in w.zones[z].grid.InRange(c, r)
       <==> y in w.entities && w.entityZone[y] == z && DistSq(w.Obj(w.entities[y]).position, c) <= r * r
  {
    var g := w.zones[z].grid;
    assert ZoneOk(w, z);
    StandardReach(g);
    CleanRange(g, c, r, y);
    if y in w.entities { assert LiveOk(w, y); }
  }

  lemma StandardReach(g: Grid)
    requires Standard(g)
    ensures g.Reach() == AOI_RADIUS
  {
    assert AOI_RADIUS / CELL_SIZE == 3.0;
    assert g.cellRange == Ceil(3.0);
  }
}
