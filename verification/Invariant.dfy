/** What every run of the game server keeps true. */
module Invariants {
  import opened Ids
  import opened Grids
  import opened Objects
  import opened Worlds
  import GridHistory

  /** What the caller guarantees of a step: an object keeps its id, real ids carry no ghost suffix,
      and map iterations visit each entry once. */
  ghost predicate Enabled(w: World, op: Op) {
    match op
    case Add(e, v) => IsReal(v.id) && (e in w.objs ==> w.objs[e].id == v.id)
    case ObserveOne(z, x, spawns, despawns) =>
      Visits(spawns, w.Surroundings(z, x)) && Visits(despawns, w.Visible(x))
    case Load(z, saved, order) => saved.Some? ==> Visits(order, saved.value.positions.Keys)
    case _ => true
  }

  ghost function Run(w: World, ops: seq<Op>): World {
    if ops == [] then w else Step(Run(w, ops[..|ops| - 1]), ops[|ops| - 1])
  }

  ghost predicate AllEnabled(w: World, ops: seq<Op>) {
    forall i :: 0 <= i < |ops| ==> Enabled(Run(w, ops[..i]), ops[i])
  }

  lemma RunMore(w: World, ops: seq<Op>, op: Op)
    ensures Run(w, ops + [op]) == Step(Run(w, ops), op)
  {
    assert (ops + [op])[..|ops|] == ops;
  }

  /** The moves of one simulate as steps. */
  ghost function SimulateOps(w: World, moves: map<Id, Vec>, order: seq<Id>): seq<Op> {
    if order == [] then []
    else
      var x, front := order[|order| - 1], order[..|order| - 1];
      SimulateOps(w, moves, front)
      + if Wants(Simulated(w, moves, front), moves, x) then [MoveTo(x, moves[x])] else []
  }

  /** simulate is a run of moves. */
  lemma {:induction false} SimulateIsRun(w: World, moves: map<Id, Vec>, order: seq<Id>)
    ensures Simulated(w, moves, order) == Run(w, SimulateOps(w, moves, order))
    ensures forall op :: op in SimulateOps(w, moves, order) ==> op.MoveTo?
    decreases |order|
  {
    if order != [] {
      var x, front := order[|order| - 1], order[..|order| - 1];
      SimulateIsRun(w, moves, front);
      var ops := SimulateOps(w, moves, front);
      if Wants(Simulated(w, moves, front), moves, x) {
        RunMore(w, ops, MoveTo(x, moves[x]));
      } else {
        assert SimulateOps(w, moves, order) == ops;
      }
    }
  }

  lemma EnabledMore(w: World, ops: seq<Op>, op: Op)
    requires AllEnabled(w, ops) && Enabled(Run(w, ops), op)
    ensures AllEnabled(w, ops + [op])
  {
    var more := ops + [op];
    forall i | 0 <= i < |more| ensures Enabled(Run(w, more[..i]), more[i]) {
      assert more[..i] == if i < |ops| then ops[..i] else ops;
    }
  }

  /** A server that has just been created. */
  function Start(): World {
    World(map[], map[], map[], map[], map[], map[], map[], map[], [], [], [], map[], map[])
  }

  // ---------- the invariant ----------

  ghost predicate Standard(g: Grid) {
    g.Valid() && g.cellSize == CELL_SIZE && g.radius == AOI_RADIUS
  }

  /** An assigned zone is indexed under its own grid. */
  ghost predicate ZoneOk(w: World, z: ZoneId)
    requires z in w.zones
  {
    Standard(w.zones[z].grid) && (w.zones[z].zone.Some? ==> z in w.aoiIndex && w.aoiIndex[z].OfZone?)
  }

  ghost predicate IndexOk(w: World, z: ZoneId)
    requires z in w.aoiIndex
  {
    z in w.ghostStore && match w.aoiIndex[z] case OfZone => z in w.zones case Detached(g) => g.Valid()
  }

  ghost predicate ZonesOk(w: World) {
    (forall z :: z in w.zones ==> ZoneOk(w, z)) && forall z :: z in w.aoiIndex ==> IndexOk(w, z)
  }

  /** Entries of the zones' entity maps point to objects of that id. */
  ghost predicate Named(w: World) {
    forall z, x :: z in w.zones && x in w.zones[z].entities ==>
                     w.zones[z].entities[x] in w.objs && w.objs[w.zones[z].entities[x]].id == x
  }

  /** A live entity has a zone, is the very object in that zone's map, and the zone's grid holds
      exactly its current position. */
  ghost predicate LiveOk(w: World, x: Id)
    requires x in w.entities
  {
    && IsReal(x)
    && x in w.entityZone && w.entityZone[x] in w.zones
    && var sim := w.zones[w.entityZone[x]];
    && x in sim.entities && sim.entities[x] == w.entities[x]
    && w.entities[x] in w.objs && w.objs[w.entities[x]].id == x
    && x in sim.grid.positions && sim.grid.positions[x] == w.objs[w.entities[x]].position
  }

  ghost predicate Agree(w: World) {
    w.entities.Keys == w.entityZone.Keys && forall x :: x in w.entities ==> LiveOk(w, x)
  }

  /** A mirrored ghost carries its mark and stands in the zone's indexed grid where the store says. */
  ghost predicate MirrorOk(w: World, z: ZoneId, x: Id)
    requires z in w.ghostStore && x in w.ghostStore[z]
  {
    HasMark(x, '@') && w.ghostStore[z][x].remote
    && x in w.IndexGrid(z).positions && w.IndexGrid(z).positions[x] == w.ghostStore[z][x].position
  }

  ghost predicate GhostsOk(w: World) {
    && w.ghostStore.Keys == w.aoiIndex.Keys
    && (forall x :: x in w.ghosts ==> HasMark(x, '_'))
    && forall z, x :: z in w.ghostStore && x in w.ghostStore[z] ==> MirrorOk(w, z, x)
  }

  ghost predicate Inv(w: World) {
    ZonesOk(w) && Named(w) && Agree(w) && GhostsOk(w)
  }

  // ---------- one grid changes at one id ----------

  /** `h` differs from `g` at most in the entry of `id`. */
  ghost predicate Touches(g: Grid, h: Grid, id: Id) {
    h.Valid() && h.cellSize == g.cellSize && h.radius == g.radius
    && h.positions - {id} == g.positions - {id}
  }

  lemma PositionUpdate(m: map<Id, Vec>, id: Id, p: Vec)
    ensures m[id := p] - {id} == m - {id} && m - {id} - {id} == m - {id}
  {
  }

  lemma EnterPositions(g: Grid, id: Id, p: Vec)
    ensures g.Enter(id, p).positions == g.positions[id := p]
    ensures g.Move(id, p).positions == g.positions[id := p]
    ensures g.Leave(id).positions == g.positions - {id}
  {
  }

  lemma TouchEnter(g: Grid, id: Id, p: Vec)
    requires g.Valid()
    ensures Touches(g, g.Enter(id, p), id) && g.Enter(id, p).positions == g.positions[id := p]
  {
    EnterKeeps(g, id, p);
    EnterPositions(g, id, p);
    PositionUpdate(g.positions, id, p);
  }

  lemma TouchLeave(g: Grid, id: Id)
    requires g.Valid()
    ensures Touches(g, g.Leave(id), id) && g.Leave(id).positions == g.positions - {id}
  {
    LeaveKeeps(g, id);
    EnterPositions(g, id, ORIGIN);
    PositionUpdate(g.positions, id, ORIGIN);
  }

  lemma TouchMove(g: Grid, id: Id, p: Vec)
    requires g.Valid()
    ensures Touches(g, g.Move(id, p), id) && g.Move(id, p).positions == g.positions[id := p]
  {
    MoveKeeps(g, id, p);
    EnterPositions(g, id, p);
    PositionUpdate(g.positions, id, p);
  }

  lemma TouchesOther(g: Grid, h: Grid, id: Id, o: Id)
    requires Touches(g, h, id) && o != id
    ensures o in h.positions <==> o in g.positions
    ensures o in g.positions ==> h.positions[o] == g.positions[o]
  {
    assert o in h.positions - {id} <==> o in g.positions - {id};
  }

  /** Zones and index are as before, except that grids of `z` changed at `id`. */
  ghost predicate GridStep(w: World, w': World, z: ZoneId, id: Id) {
    && w'.zones.Keys == w.zones.Keys && w'.aoiIndex.Keys == w.aoiIndex.Keys
    && (forall y :: y in w.zones && y != z ==> w'.zones[y] == w.zones[y])
    && (forall y :: y in w.aoiIndex && y != z ==> w'.aoiIndex[y] == w.aoiIndex[y])
    && (z in w.zones ==> w'.zones[z] == w.zones[z].(grid := w'.zones[z].grid)
                         && Touches(w.zones[z].grid, w'.zones[z].grid, id))
    && (z in w.aoiIndex ==> match w.aoiIndex[z]
                            case OfZone => w'.aoiIndex[z].OfZone?
                            case Detached(g) => w'.aoiIndex[z].Detached? && Touches(g, w'.aoiIndex[z].grid, id))
  }

  lemma ZoneGridStep(w: World, z: ZoneId, h: Grid, id: Id)
    requires ZonesOk(w) && Touches(w.GridOf(z), h, id)
    ensures GridStep(w, w.WithGrid(z, h), z, id)
  {
  }

  lemma IndexGridStep(w: World, z: ZoneId, h: Grid, id: Id)
    requires ZonesOk(w) && Touches(w.IndexGrid(z), h, id)
    ensures GridStep(w, w.WithIndexGrid(z, h), z, id)
  {
    if z in w.aoiIndex && w.aoiIndex[z].Detached? {
      DetachedGridStep(w, z, h, id);
    } else {
      ZoneGridStep(w, z, h, id);
    }
  }

  lemma DetachedGridStep(w: World, z: ZoneId, h: Grid, id: Id)
    requires ZonesOk(w) && z in w.aoiIndex && w.aoiIndex[z].Detached? && Touches(w.IndexGrid(z), h, id)
    ensures GridStep(w, w.WithIndexGrid(z, h), z, id)
  {
  }

  lemma IndexGridSet(w: World, z: ZoneId, h: Grid)
    requires z in w.aoiIndex && (w.aoiIndex[z].OfZone? ==> z in w.zones)
    ensures w.WithIndexGrid(z, h).IndexGrid(z) == h
  {
  }

  lemma GridStepZones(w: World, w': World, z: ZoneId, id: Id)
    requires ZonesOk(w) && GridStep(w, w', z, id) && w'.ghostStore.Keys == w.ghostStore.Keys
    ensures ZonesOk(w')
  {
    forall y | y in w'.zones ensures ZoneOk(w', y) { assert ZoneOk(w, y); }
    forall y | y in w'.aoiIndex ensures IndexOk(w', y) { assert IndexOk(w, y); }
  }

  lemma GridStepNamed(w: World, w': World, z: ZoneId, id: Id)
    requires Named(w) && GridStep(w, w', z, id) && w'.objs == w.objs
    ensures Named(w')
  {
  }

  lemma GridStepLive(w: World, w': World, z: ZoneId, id: Id, x: Id)
    requires x in w.entities && LiveOk(w, x) && GridStep(w, w', z, id)
    requires x in w'.entities && w'.entities[x] == w.entities[x] && x in w'.entityZone && w'.entityZone[x] == w.entityZone[x]
    requires w.entities[x] in w'.objs && w'.objs[w.entities[x]] == w.objs[w.entities[x]]
    requires x != id || w.entityZone[x] != z
    ensures LiveOk(w', x)
  {
    if w.entityZone[x] == z { TouchesOther(w.zones[z].grid, w'.zones[z].grid, id, x); }
  }

  lemma GridStepMirror(w: World, w': World, z: ZoneId, id: Id, y: ZoneId, x: Id)
    requires ZonesOk(w) && y in w.ghostStore && y in w.aoiIndex && x in w.ghostStore[y] && MirrorOk(w, y, x)
    requires GridStep(w, w', z, id)
    requires y in w'.ghostStore && x in w'.ghostStore[y] && w'.ghostStore[y][x] == w.ghostStore[y][x]
    requires x != id || y != z
    ensures MirrorOk(w', y, x)
  {
    assert IndexOk(w, y);
    if y == z { TouchesOther(w.IndexGrid(z), w'.IndexGrid(z), id, x); }
  }

  /** A grid step at an id of no live entity of `z` keeps the entity maps in agreement. */
  lemma GridStepAgree(w: World, w': World, z: ZoneId, id: Id)
    requires Agree(w) && GridStep(w, w', z, id)
    requires w'.entities == w.entities && w'.entityZone == w.entityZone && w'.objs == w.objs
    requires !IsReal(id)
    ensures Agree(w')
  {
    forall x | x in w'.entities ensures LiveOk(w', x) { GridStepLive(w, w', z, id, x); }
  }

  /** A grid step at an id without the remote mark keeps the mirrored ghosts. */
  lemma GridStepGhosts(w: World, w': World, z: ZoneId, id: Id)
    requires ZonesOk(w) && GhostsOk(w) && GridStep(w, w', z, id)
    requires w'.ghostStore == w.ghostStore && !HasMark(id, '@') && forall x :: x in w'.ghosts ==> HasMark(x, '_')
    ensures GhostsOk(w')
  {
    forall y, x | y in w'.ghostStore && x in w'.ghostStore[y] ensures MirrorOk(w', y, x) {
      GridStepMirror(w, w', z, id, y, x);
    }
  }

  // ---------- steps on ghosts ----------

  lemma QuietKeeps(w: World, w': World)
    requires Inv(w) && w'.zones == w.zones && w'.entities == w.entities && w'.entityZone == w.entityZone
    requires w'.objs == w.objs && w'.aoiIndex == w.aoiIndex && w'.ghosts == w.ghosts && w'.ghostStore == w.ghostStore
    ensures Inv(w')
  {
    forall z | z in w'.zones ensures ZoneOk(w', z) { assert ZoneOk(w, z); }
    forall z | z in w'.aoiIndex ensures IndexOk(w', z) { assert IndexOk(w, z); }
    forall x | x in w'.entities ensures LiveOk(w', x) { assert LiveOk(w, x); }
    forall z, x | z in w'.ghostStore && x in w'.ghostStore[z] ensures MirrorOk(w', z, x) { assert MirrorOk(w, z, x); }
  }

  lemma ZoneGridValid(w: World, z: ZoneId)
    requires ZonesOk(w)
    ensures w.GridOf(z).Valid() && w.IndexGrid(z).Valid()
  {
    if z in w.zones { assert ZoneOk(w, z); }
    if z in w.aoiIndex { assert IndexOk(w, z); }
  }

  lemma DetectKeeps(w: World, z: ZoneId, x: Id, now: int)
    requires Inv(w)
    ensures Inv(Detect(w, z, x, now))
  {
    var w' := Detect(w, z, x, now);
    if w' != w {
      var id, p := LocalGhost(x), w.entityAOI[x].lastPosition;
      ZoneGridValid(w, z);
      TouchEnter(w.GridOf(z), id, p);
      ZoneGridStep(w, z, w.GridOf(z).Enter(id, p), id);
      LocalStepKeeps(w, w', z, id);
    }
  }

  lemma ExpireKeeps(w: World, gid: Id, now: int)
    requires Inv(w)
    ensures Inv(ExpireGhost(w, gid, now))
  {
    var w' := ExpireGhost(w, gid, now);
    if w' != w {
      var z := w.ghosts[gid].originZone;
      ZoneGridValid(w, z);
      TouchLeave(w.GridOf(z), gid);
      ZoneGridStep(w, z, w.GridOf(z).Leave(gid), gid);
      LocalStepKeeps(w, w', z, gid);
    }
  }

  /** A grid step at a local ghost. */
  lemma LocalStepKeeps(w: World, w': World, z: ZoneId, id: Id)
    requires Inv(w) && GridStep(w, w', z, id) && HasMark(id, '_') && !HasMark(id, '@')
    requires w'.entities == w.entities && w'.entityZone == w.entityZone && w'.objs == w.objs
    requires w'.ghostStore == w.ghostStore && forall x :: x in w'.ghosts ==> HasMark(x, '_')
    ensures Inv(w')
  {
    GridStepZones(w, w', z, id);
    GridStepNamed(w, w', z, id);
    GridStepAgree(w, w', z, id);
    GridStepGhosts(w, w', z, id);
  }

  /** A step that puts ghost `gid` of zone `z` somewhere, or takes it away, in grid and store together. */
  lemma MirrorStepKeeps(w: World, w': World, z: ZoneId, gid: Id, store: map<Id, GhostEntry>)
    requires Inv(w) && GridStep(w, w', z, gid) && HasMark(gid, '@') && z in w.ghostStore
    requires w'.entities == w.entities && w'.entityZone == w.entityZone && w'.objs == w.objs && w'.ghosts == w.ghosts
    requires w'.ghostStore == w.ghostStore[z := store] && store - {gid} == w.ghostStore[z] - {gid}
    requires gid in store ==> MirrorOk(w', z, gid)
    ensures Inv(w')
  {
    GridStepZones(w, w', z, gid);
    GridStepNamed(w, w', z, gid);
    GridStepAgree(w, w', z, gid);
    MirrorStepGhosts(w, w', z, gid, store);
  }

  lemma MirrorStepGhosts(w: World, w': World, z: ZoneId, gid: Id, store: map<Id, GhostEntry>)
    requires ZonesOk(w) && GhostsOk(w) && GridStep(w, w', z, gid) && w'.ghosts == w.ghosts && z in w.ghostStore
    requires w'.ghostStore == w.ghostStore[z := store] && store - {gid} == w.ghostStore[z] - {gid}
    requires gid in store ==> MirrorOk(w', z, gid)
    ensures GhostsOk(w')
  {
    forall y, x | y in w'.ghostStore && x in w'.ghostStore[y] ensures MirrorOk(w', y, x) {
      if y != z || x != gid {
        assert y == z ==> x in store - {gid};
        assert x in w.ghostStore[y] && w.ghostStore[y][x] == w'.ghostStore[y][x];
        GridStepMirror(w, w', z, gid, y, x);
      }
    }
  }

  /** Where a placed ghost stands afterwards. */
  lemma PlaceGhost(w: World, w': World, z: ZoneId, gid: Id, h: Grid)
    requires ZonesOk(w) && z in w.aoiIndex && Touches(w.IndexGrid(z), h, gid)
    requires w'.zones == w.WithIndexGrid(z, h).zones && w'.aoiIndex == w.WithIndexGrid(z, h).aoiIndex
    ensures GridStep(w, w', z, gid) && w'.IndexGrid(z) == h
  {
    IndexGridStep(w, z, h, gid);
    assert IndexOk(w, z);
    IndexGridSet(w, z, h);
  }

  /** Zone `z` with indexed grid `h` and ghost store `store`. */
  ghost function Mirror(w: World, z: ZoneId, h: Grid, store: map<Id, GhostEntry>): World {
    w.WithIndexGrid(z, h).(ghostStore := w.ghostStore[z := store])
  }

  lemma MirrorKeeps(w: World, z: ZoneId, h: Grid, store: map<Id, GhostEntry>, gid: Id)
    requires Inv(w) && Mirrors(w, z) && HasMark(gid, '@') && Touches(w.IndexGrid(z), h, gid)
    requires store - {gid} == w.ghostStore[z] - {gid}
    requires gid in store ==> store[gid].remote && gid in h.positions && h.positions[gid] == store[gid].position
    ensures Inv(Mirror(w, z, h, store))
  {
    var w' := Mirror(w, z, h, store);
    PlaceGhost(w, w', z, gid, h);
    MirrorStepKeeps(w, w', z, gid, store);
  }

  lemma StoreUpdate(m: map<Id, GhostEntry>, gid: Id, entry: GhostEntry)
    ensures m[gid := entry] - {gid} == m - {gid} && m - {gid} - {gid} == m - {gid}
  {
  }

  lemma PutKeeps(w: World, z: ZoneId, gid: Id, h: Grid, entry: GhostEntry)
    requires Inv(w) && Mirrors(w, z) && HasMark(gid, '@') && entry.remote
    requires Touches(w.IndexGrid(z), h, gid) && h.positions == w.IndexGrid(z).positions[gid := entry.position]
    ensures Inv(Mirror(w, z, h, w.ghostStore[z][gid := entry]))
  {
    StoreUpdate(w.ghostStore[z], gid, entry);
    MirrorKeeps(w, z, h, w.ghostStore[z][gid := entry], gid);
  }

  lemma DropKeeps(w: World, z: ZoneId, gid: Id)
    requires Inv(w) && Mirrors(w, z) && HasMark(gid, '@')
    ensures Inv(Mirror(w, z, w.IndexGrid(z).Leave(gid), w.ghostStore[z] - {gid}))
  {
    ZoneGridValid(w, z);
    TouchLeave(w.IndexGrid(z), gid);
    StoreUpdate(w.ghostStore[z], gid, GhostEntry(true, gid, z, ORIGIN, 0));
    MirrorKeeps(w, z, w.IndexGrid(z).Leave(gid), w.ghostStore[z] - {gid}, gid);
  }

  lemma ReportIsMirror(w: World, z: ZoneId, n: ZoneId, x: Id, p: Vec, now: int)
    requires Mirrors(w, z) && z in w.zones && w.zones[z].zone.Some?
    ensures var gid, g := RemoteGhost(x), w.IndexGrid(z);
            ReportGhost(w, z, n, x, p, now)
            == Mirror(w, z, if gid in w.ghostStore[z] then g.Move(gid, p) else g.Enter(gid, p),
                      w.ghostStore[z][gid := GhostEntry(true, x, n, p, now + GHOST_TTL * 6)])
  {
  }

  lemma ReportKeeps(w: World, z: ZoneId, n: ZoneId, x: Id, p: Vec, now: int)
    requires Inv(w)
    ensures Inv(ReportGhost(w, z, n, x, p, now))
  {
    if Mirrors(w, z) && z in w.zones && w.zones[z].zone.Some? {
      ReportIsMirror(w, z, n, x, p, now);
      ZoneGridValid(w, z);
      var gid, entry := RemoteGhost(x), GhostEntry(true, x, n, p, now + GHOST_TTL * 6);
      if gid in w.ghostStore[z] {
        TouchMove(w.IndexGrid(z), gid, p);
        PutKeeps(w, z, gid, w.IndexGrid(z).Move(gid, p), entry);
      } else {
        TouchEnter(w.IndexGrid(z), gid, p);
        PutKeeps(w, z, gid, w.IndexGrid(z).Enter(gid, p), entry);
      }
    }
  }

  lemma TimeoutKeeps(w: World, z: ZoneId, gid: Id, now: int)
    requires Inv(w)
    ensures Inv(TimeoutGhost(w, z, gid, now))
  {
    if Mirrors(w, z) && gid in w.ghostStore[z] {
      assert MirrorOk(w, z, gid);
      DropKeeps(w, z, gid);
    }
  }

  lemma PeerEnterKeeps(w: World, z: ZoneId, x: Id, p: Vec, now: int)
    requires Inv(w)
    ensures Inv(GhostEnter(w, z, x, p, now))
  {
    if Mirrors(w, z) {
      ZoneGridValid(w, z);
      TouchEnter(w.IndexGrid(z), RemoteGhost(x), p);
      PutKeeps(w, z, RemoteGhost(x), w.IndexGrid(z).Enter(RemoteGhost(x), p), GhostEntry(true, x, z, p, now + GHOST_TTL * 6));
    }
  }

  lemma PeerLeaveKeeps(w: World, z: ZoneId, x: Id)
    requires Inv(w)
    ensures Inv(GhostLeave(w, z, x))
  {
    if Mirrors(w, z) { DropKeeps(w, z, RemoteGhost(x)); }
  }

  lemma PeerUpdateKeeps(w: World, z: ZoneId, x: Id, p: Vec, now: int)
    requires Inv(w)
    ensures Inv(GhostUpdate(w, z, x, p, now))
  {
    var gid := RemoteGhost(x);
    if Mirrors(w, z) && gid in w.ghostStore[z] {
      assert MirrorOk(w, z, gid);
      ZoneGridValid(w, z);
      TouchMove(w.IndexGrid(z), gid, p);
      PutKeeps(w, z, gid, w.IndexGrid(z).Move(gid, p),
               w.ghostStore[z][gid].(position := p, expiresAt := now + GHOST_TTL * 6));
    }
  }

  // ---------- steps on zones ----------

  lemma AssignKeeps(w: World, zone: Zone)
    requires Inv(w)
    ensures Inv(AssignZone(w, zone))
  {
    if zone.id !in w.zones {
      var w' := AssignZone(w, zone);
      NewZoneZones(w, w', zone.id);
      NewZoneNamed(w, w', zone.id);
      NewZoneAgree(w, w', zone.id);
      AssignGhosts(w, zone);
    }
  }

  /** A new empty zone. */
  ghost predicate NewZone(w: World, w': World, z: ZoneId) {
    && z !in w.zones && z in w'.zones && w'.zones == w.zones[z := ZoneSim(w'.zones[z].zone, EMPTY_GRID, map[])]
    && w'.entities == w.entities && w'.entityZone == w.entityZone && w'.objs == w.objs
  }

  lemma NewZoneZones(w: World, w': World, z: ZoneId)
    requires ZonesOk(w) && NewZone(w, w', z)
    requires forall y :: y in w.ghostStore ==> y in w'.ghostStore
    requires forall y :: y in w.aoiIndex && y != z ==> y in w'.aoiIndex && w'.aoiIndex[y] == w.aoiIndex[y]
    requires forall y :: y in w'.aoiIndex && y != z ==> y in w.aoiIndex
    requires z in w'.aoiIndex ==> z in w'.ghostStore && (w'.aoiIndex[z].Detached? ==> w'.aoiIndex[z].grid.Valid())
    requires w'.zones[z].zone.Some? ==> z in w'.aoiIndex && w'.aoiIndex[z].OfZone?
    ensures ZonesOk(w')
  {
    forall y | y in w'.zones ensures ZoneOk(w', y) { assert y in w.zones ==> ZoneOk(w, y); }
    forall y | y in w'.aoiIndex ensures IndexOk(w', y) { assert y in w.aoiIndex ==> IndexOk(w, y); }
  }

  lemma NewZoneNamed(w: World, w': World, z: ZoneId)
    requires Named(w) && NewZone(w, w', z)
    ensures Named(w')
  {
  }

  lemma NewZoneAgree(w: World, w': World, z: ZoneId)
    requires Agree(w) && NewZone(w, w', z)
    ensures Agree(w')
  {
    forall x | x in w'.entities ensures LiveOk(w', x) { assert LiveOk(w, x); }
  }

  /** Index entries that point to a zone point to one that exists. */
  lemma IndexGridStays(w: World, w': World, y: ZoneId)
    requires ZonesOk(w) && y in w.aoiIndex && y in w'.aoiIndex && w'.aoiIndex[y] == w.aoiIndex[y]
    requires y in w.zones ==> y in w'.zones && w'.zones[y].grid == w.zones[y].grid
    ensures w'.IndexGrid(y) == w.IndexGrid(y)
  {
    assert IndexOk(w, y);
  }

  lemma AssignGhosts(w: World, zone: Zone)
    requires ZonesOk(w) && GhostsOk(w) && zone.id !in w.zones
    ensures GhostsOk(AssignZone(w, zone))
  {
    var w' := AssignZone(w, zone);
    forall y, x | y in w'.ghostStore && x in w'.ghostStore[y] ensures MirrorOk(w', y, x) {
      assert MirrorOk(w, y, x);
      IndexGridStays(w, w', y);
    }
  }

  lemma ReleaseKeeps(w: World, z: ZoneId)
    requires Inv(w)
    ensures Inv(ReleaseZone(w, z))
  {
    if z in w.zones {
      ReleaseZones(w, z);
      ReleaseAgree(w, z);
      ReleaseGhosts(w, z);
      ReleaseNamed(w, z);
    }
  }

  lemma ReleaseZones(w: World, z: ZoneId)
    requires ZonesOk(w) && z in w.zones
    ensures ZonesOk(ReleaseZone(w, z))
  {
    var w' := ReleaseZone(w, z);
    forall y | y in w'.zones ensures ZoneOk(w', y) { assert ZoneOk(w, y); }
    forall y | y in w'.aoiIndex ensures IndexOk(w', y) { assert IndexOk(w, y); }
  }

  lemma ReleaseNamed(w: World, z: ZoneId)
    requires Named(w) && z in w.zones
    ensures Named(ReleaseZone(w, z))
  {
  }

  lemma ReleaseAgree(w: World, z: ZoneId)
    requires Agree(w) && z in w.zones
    ensures Agree(ReleaseZone(w, z))
  {
    var w' := ReleaseZone(w, z);
    forall x | x in w'.entities ensures LiveOk(w', x) { assert LiveOk(w, x); }
  }

  lemma ReleaseGhosts(w: World, z: ZoneId)
    requires ZonesOk(w) && GhostsOk(w) && z in w.zones
    ensures GhostsOk(ReleaseZone(w, z))
  {
    var w' := ReleaseZone(w, z);
    forall y, x | y in w'.ghostStore && x in w'.ghostStore[y] ensures MirrorOk(w', y, x) {
      assert MirrorOk(w, y, x);
      IndexGridStays(w, w', y);
    }
  }

  lemma LoadKeeps(w: World, z: ZoneId, saved: Option<GridHistory.Saved>, order: seq<Id>)
    requires Inv(w) && (saved.Some? ==> Visits(order, saved.value.positions.Keys))
    ensures Inv(LoadIndex(w, z, saved, order))
  {
    var w' := LoadIndex(w, z, saved, order);
    if z !in w.aoiIndex {
      if saved.Some? { GridHistory.RebuildAll(saved.value, order); }
      NewIndexZones(w, w', z);
      NewIndexGhosts(w, w', z);
      SameEntities(w, w');
    }
  }

  ghost predicate NewIndex(w: World, w': World, z: ZoneId) {
    && z !in w.aoiIndex && z in w'.aoiIndex && w'.aoiIndex[z].Detached? && w'.aoiIndex[z].grid.Valid()
    && w'.aoiIndex == w.aoiIndex[z := w'.aoiIndex[z]] && w'.ghostStore == w.ghostStore[z := map[]]
    && w'.zones == w.zones && w'.ghosts == w.ghosts
  }

  lemma NewIndexZones(w: World, w': World, z: ZoneId)
    requires ZonesOk(w) && NewIndex(w, w', z)
    ensures ZonesOk(w')
  {
    forall y | y in w'.zones ensures ZoneOk(w', y) { assert ZoneOk(w, y); }
    forall y | y in w'.aoiIndex ensures IndexOk(w', y) { assert y in w.aoiIndex ==> IndexOk(w, y); }
  }

  lemma NewIndexGhosts(w: World, w': World, z: ZoneId)
    requires ZonesOk(w) && GhostsOk(w) && NewIndex(w, w', z)
    ensures GhostsOk(w')
  {
    forall y, x | y in w'.ghostStore && x in w'.ghostStore[y] ensures MirrorOk(w', y, x) {
      assert MirrorOk(w, y, x);
      IndexGridStays(w, w', y);
    }
  }

  lemma SameEntities(w: World, w': World)
    requires Named(w) && Agree(w) && w'.zones == w.zones && w'.entities == w.entities
    requires w'.entityZone == w.entityZone && w'.objs == w.objs
    ensures Named(w') && Agree(w')
  {
    forall x | x in w'.entities ensures LiveOk(w', x) { assert LiveOk(w, x); }
  }

  // ---------- steps on entities ----------

  lemma EnsureKeeps(w: World, z: ZoneId)
    requires Inv(w)
    ensures Inv(EnsureZone(w, z))
  {
    if z !in w.zones {
      var w' := EnsureZone(w, z);
      NewZoneIndexFree(w, z);
      NewZoneZones(w, w', z);
      NewZoneNamed(w, w', z);
      NewZoneAgree(w, w', z);
      EnsureGhosts(w, z);
    }
  }

  lemma NewZoneIndexFree(w: World, z: ZoneId)
    requires ZonesOk(w) && z !in w.zones
    ensures z in w.aoiIndex ==> z in w.ghostStore && w.aoiIndex[z].Detached? && w.aoiIndex[z].grid.Valid()
  {
    if z in w.aoiIndex { assert IndexOk(w, z); }
  }

  lemma EnsureGhosts(w: World, z: ZoneId)
    requires ZonesOk(w) && GhostsOk(w) && z !in w.zones
    ensures GhostsOk(EnsureZone(w, z))
  {
    var w' := EnsureZone(w, z);
    forall y, x | y in w'.ghostStore && x in w'.ghostStore[y] ensures MirrorOk(w', y, x) {
      assert MirrorOk(w, y, x);
      IndexGridStays(w, w', y);
    }
  }

  /** The grid side of adding, removing, sweeping or moving a real entity. */
  lemma RealGridStep(w: World, w': World, z: ZoneId, x: Id)
    requires Inv(w) && IsReal(x) && GridStep(w, w', z, x) && w'.objs == w.objs
    requires w'.ghostStore == w.ghostStore && w'.ghosts == w.ghosts
    requires w'.entities == w.entities && w'.entityZone == w.entityZone
    ensures ZonesOk(w') && GhostsOk(w') && Named(w')
    ensures forall y :: y in w.entities && (y != x || w.entityZone[y] != z) ==> LiveOk(w', y)
  {
    GridStepZones(w, w', z, x);
    GridStepGhosts(w, w', z, x);
    GridStepNamed(w, w', z, x);
    forall y | y in w.entities && (y != x || w.entityZone[y] != z) ensures LiveOk(w', y) {
      GridStepLive(w, w', z, x, y);
    }
  }

  /** The map side of adding `x`: the zone's grid already has it. */
  ghost predicate EntersMaps(w: World, w': World, z: ZoneId, x: Id, e: Entity) {
    && z in w.zones && e in w'.objs && w'.objs == w.objs[e := w'.objs[e]] && w'.objs[e].id == x
    && (e in w.objs ==> w.objs[e].id == x)
    && x in w.zones[z].grid.positions && w.zones[z].grid.positions[x] == w'.objs[e].position
    && w'.zones == w.zones[z := w.zones[z].(entities := w.zones[z].entities[x := e])]
    && w'.entities == w.entities[x := e] && w'.entityZone == w.entityZone[x := z]
    && w'.aoiIndex == w.aoiIndex && w'.ghostStore == w.ghostStore && w'.ghosts == w.ghosts
  }

  lemma EnterMapsZones(w: World, w': World, z: ZoneId, x: Id, e: Entity)
    requires ZonesOk(w) && EntersMaps(w, w', z, x, e)
    ensures ZonesOk(w')
  {
    forall y | y in w'.zones ensures ZoneOk(w', y) { assert ZoneOk(w, y); }
    forall y | y in w'.aoiIndex ensures IndexOk(w', y) { assert IndexOk(w, y); }
  }

  lemma EnterMapsNamed(w: World, w': World, z: ZoneId, x: Id, e: Entity)
    requires Named(w) && EntersMaps(w, w', z, x, e)
    ensures Named(w')
  {
  }

  lemma EnterMapsAgree(w: World, w': World, z: ZoneId, x: Id, e: Entity)
    requires w.entities.Keys == w.entityZone.Keys && IsReal(x) && EntersMaps(w, w', z, x, e)
    requires forall y :: y in w.entities && y != x ==> LiveOk(w, y)
    ensures Agree(w')
  {
    forall y | y in w'.entities ensures LiveOk(w', y) { if y != x { assert LiveOk(w, y); } }
  }

  lemma EnterMapsGhosts(w: World, w': World, z: ZoneId, x: Id, e: Entity)
    requires ZonesOk(w) && GhostsOk(w) && EntersMaps(w, w', z, x, e)
    ensures GhostsOk(w')
  {
    forall y, g | y in w'.ghostStore && g in w'.ghostStore[y] ensures MirrorOk(w', y, g) {
      assert MirrorOk(w, y, g);
      IndexGridStays(w, w', y);
    }
  }

  lemma AddKeeps(w0: World, e: Entity, v: EntityVal)
    requires Inv(w0) && Enabled(w0, Add(e, v))
    ensures Inv(AddEntity(w0, e, v))
  {
    var w := EnsureZone(w0, ZoneFor(v));
    EnsureKeeps(w0, ZoneFor(v));
    AddPresentKeeps(w, e, v);
    assert AddEntity(w, e, v) == AddEntity(w0, e, v);
  }

  lemma AddPresentKeeps(w: World, e: Entity, v: EntityVal)
    requires Inv(w) && ZoneFor(v) in w.zones && IsReal(v.id) && (e in w.objs ==> w.objs[e].id == v.id)
    ensures Inv(AddEntity(w, e, v))
  {
    var z, x := ZoneFor(v), v.id;
    ZoneGridValid(w, z);
    TouchEnter(w.GridOf(z), x, v.position);
    EnterZoneKeeps(w, z, x, v.position);
    AddEntersMaps(w, e, v);
    AddMaps(w.WithGrid(z, w.GridOf(z).Enter(x, v.position)), AddEntity(w, e, v), z, x, e);
  }

  lemma EnterZoneKeeps(w: World, z: ZoneId, x: Id, p: Vec)
    requires Inv(w) && z in w.zones && IsReal(x) && Touches(w.GridOf(z), w.GridOf(z).Enter(x, p), x)
    ensures var w1 := w.WithGrid(z, w.GridOf(z).Enter(x, p));
            && ZonesOk(w1) && GhostsOk(w1) && Named(w1)
            && forall y :: y in w.entities && (y != x || w.entityZone[y] != z) ==> LiveOk(w1, y)
  {
    var h := w.GridOf(z).Enter(x, p);
    ZoneGridStep(w, z, h, x);
    RealGridStep(w, w.WithGrid(z, h), z, x);
  }

  lemma AddEntersMaps(w: World, e: Entity, v: EntityVal)
    requires ZoneFor(v) in w.zones && (e in w.objs ==> w.objs[e].id == v.id)
    ensures EntersMaps(w.WithGrid(ZoneFor(v), w.GridOf(ZoneFor(v)).Enter(v.id, v.position)), AddEntity(w, e, v),
                       ZoneFor(v), v.id, e)
  {
    EnterPositions(w.GridOf(ZoneFor(v)), v.id, v.position);
  }

  lemma AddMaps(w: World, w': World, z: ZoneId, x: Id, e: Entity)
    requires ZonesOk(w) && GhostsOk(w) && Named(w) && w.entities.Keys == w.entityZone.Keys && IsReal(x)
    requires forall y :: y in w.entities && (y != x || w.entityZone[y] != z) ==> LiveOk(w, y)
    requires EntersMaps(w, w', z, x, e)
    ensures Inv(w')
  {
    EnterMapsZones(w, w', z, x, e);
    EnterMapsNamed(w, w', z, x, e);
    EnterMapsAgree(w, w', z, x, e);
    EnterMapsGhosts(w, w', z, x, e);
  }

  lemma RemoveKeeps(w: World, x: Id)
    requires Inv(w)
    ensures Inv(RemoveEntity(w, x))
  {
    if x in w.entityZone {
      assert LiveOk(w, x);
      var z := w.entityZone[x];
      ZoneGridValid(w, z);
      TouchLeave(w.GridOf(z), x);
      LeaveZoneKeeps(w, w.WithGrid(z, w.GridOf(z).Leave(x)), z, x);
      RemoveLeavesMaps(w, z, x);
      LeaveMaps(w.WithGrid(z, w.GridOf(z).Leave(x)), RemoveEntity(w, x), z, x);
    }
  }

  lemma RemoveLeavesMaps(w: World, z: ZoneId, x: Id)
    requires x in w.entityZone && w.entityZone[x] == z && z in w.zones
    ensures LeavesMaps(w.WithGrid(z, w.GridOf(z).Leave(x)), RemoveEntity(w, x), z, x)
  {
  }

  lemma LeaveZoneKeeps(w: World, w1: World, z: ZoneId, x: Id)
    requires Inv(w) && x in w.entities && w.entityZone[x] == z && IsReal(x)
    requires w1 == w.WithGrid(z, w1.GridOf(z)) && Touches(w.GridOf(z), w1.GridOf(z), x)
    ensures ZonesOk(w1) && GhostsOk(w1) && Named(w1) && forall y :: y in w.entities && y != x ==> LiveOk(w1, y)
  {
    ZoneGridStep(w, z, w1.GridOf(z), x);
    RealGridStep(w, w1, z, x);
  }

  /** `x` has left the server's maps, and perhaps its zone's. */
  ghost predicate LeavesMaps(w: World, w': World, z: ZoneId, x: Id) {
    && w'.zones.Keys == w.zones.Keys
    && (forall y :: y in w.zones && y != z ==> w'.zones[y] == w.zones[y])
    && (z in w.zones ==> w'.zones[z] == w.zones[z].(entities := w'.zones[z].entities)
                         && (w'.zones[z].entities == w.zones[z].entities
                             || w'.zones[z].entities == w.zones[z].entities - {x}))
    && w'.entities == w.entities - {x} && w'.entityZone == w.entityZone - {x}
    && w'.objs == w.objs && w'.aoiIndex == w.aoiIndex && w'.ghostStore == w.ghostStore && w'.ghosts == w.ghosts
  }

  lemma LeaveMaps(w: World, w': World, z: ZoneId, x: Id)
    requires ZonesOk(w) && GhostsOk(w) && Named(w) && w.entities.Keys == w.entityZone.Keys
    requires forall y :: y in w.entities && y != x ==> LiveOk(w, y)
    requires LeavesMaps(w, w', z, x)
    ensures Inv(w')
  {
    LeaveMapsZones(w, w', z, x);
    LeaveMapsNamed(w, w', z, x);
    LeaveMapsAgree(w, w', z, x);
    LeaveMapsGhosts(w, w', z, x);
  }

  lemma LeaveMapsZones(w: World, w': World, z: ZoneId, x: Id)
    requires ZonesOk(w) && LeavesMaps(w, w', z, x)
    ensures ZonesOk(w')
  {
    forall y | y in w'.zones ensures ZoneOk(w', y) { assert ZoneOk(w, y); }
    forall y | y in w'.aoiIndex ensures IndexOk(w', y) { assert IndexOk(w, y); }
  }

  lemma LeaveMapsNamed(w: World, w': World, z: ZoneId, x: Id)
    requires Named(w) && LeavesMaps(w, w', z, x)
    ensures Named(w')
  {
  }

  lemma LeaveMapsAgree(w: World, w': World, z: ZoneId, x: Id)
    requires w.entities.Keys == w.entityZone.Keys && LeavesMaps(w, w', z, x)
    requires forall y :: y in w.entities && y != x ==> LiveOk(w, y)
    ensures Agree(w')
  {
    forall y | y in w'.entities ensures LiveOk(w', y) { assert LiveOk(w, y); }
  }

  lemma LeaveMapsGhosts(w: World, w': World, z: ZoneId, x: Id)
    requires ZonesOk(w) && GhostsOk(w) && LeavesMaps(w, w', z, x)
    ensures GhostsOk(w')
  {
    forall y, g | y in w'.ghostStore && g in w'.ghostStore[y] ensures MirrorOk(w', y, g) {
      assert MirrorOk(w, y, g);
      IndexGridStays(w, w', y);
    }
  }

  lemma SweepKeeps(w: World, x: Id, now: int)
    requires Inv(w)
    ensures Inv(SweepSession(w, x, now))
  {
    if x in w.sessions && w.sessions[x].Disconnected? && now - w.sessions[x].at > RECONNECT_WINDOW {
      if x in w.entityZone {
        assert LiveOk(w, x);
        if w.entityZone[x] in w.aoiIndex { SweepIndexed(w, x, now); } else { SweepUnindexed(w, w.entityZone[x], x, now); }
      } else {
        SweepUnindexed(w, "", x, now);
      }
    }
  }

  lemma SweepIndexed(w: World, x: Id, now: int)
    requires Inv(w) && x in w.entities && IsReal(x) && w.entityZone[x] in w.aoiIndex
    requires x in w.sessions && w.sessions[x].Disconnected? && now - w.sessions[x].at > RECONNECT_WINDOW
    ensures Inv(SweepSession(w, x, now))
  {
    var z := w.entityZone[x];
    var w1 := w.WithIndexGrid(z, w.IndexGrid(z).Leave(x));
    SweepIndexKeeps(w, z, x);
    SweepLeavesMaps(w, w1, x, now);
    LeaveMaps(w1, SweepSession(w, x, now), z, x);
  }

  lemma SweepLeavesMaps(w: World, w1: World, x: Id, now: int)
    requires x in w.entityZone && w.entityZone[x] in w.aoiIndex
    requires w1 == w.WithIndexGrid(w.entityZone[x], w.IndexGrid(w.entityZone[x]).Leave(x))
    requires x in w.sessions && w.sessions[x].Disconnected? && now - w.sessions[x].at > RECONNECT_WINDOW
    ensures LeavesMaps(w1, SweepSession(w, x, now), w.entityZone[x], x)
  {
  }

  lemma SweepUnindexed(w: World, z: ZoneId, x: Id, now: int)
    requires Inv(w) && (x in w.entityZone ==> w.entityZone[x] !in w.aoiIndex)
    requires x in w.sessions && w.sessions[x].Disconnected? && now - w.sessions[x].at > RECONNECT_WINDOW
    ensures Inv(SweepSession(w, x, now))
  {
    LeaveMaps(w, SweepSession(w, x, now), z, x);
  }

  lemma SweepIndexKeeps(w: World, z: ZoneId, x: Id)
    requires Inv(w) && x in w.entities && w.entityZone[x] == z && IsReal(x)
    ensures var w1 := w.WithIndexGrid(z, w.IndexGrid(z).Leave(x));
            && ZonesOk(w1) && GhostsOk(w1) && Named(w1)
            && forall y :: y in w.entities && y != x ==> LiveOk(w1, y)
  {
    ZoneGridValid(w, z);
    TouchLeave(w.IndexGrid(z), x);
    IndexGridStep(w, z, w.IndexGrid(z).Leave(x), x);
    RealGridStep(w, w.WithIndexGrid(z, w.IndexGrid(z).Leave(x)), z, x);
  }

  lemma MoveKeepsInv(w: World, x: Id, p: Vec)
    requires Inv(w)
    ensures Inv(MoveEntity(w, x, p))
  {
    if x in w.entities {
      assert LiveOk(w, x);
      var z, e := w.entityZone[x], w.entities[x];
      ZoneGridValid(w, z);
      TouchMove(w.GridOf(z), x, p);
      var w1 := w.WithGrid(z, w.GridOf(z).Move(x, p));
      LeaveZoneKeeps(w, w1, z, x);
      var w2 := w1.(objs := w.objs[e := w.objs[e].(position := p)]);
      PlaceKeeps(w1, w2, x, e, p);
      QuietKeeps(w2, MoveEntity(w, x, p));
    }
  }

  /** The object takes the position its grid already has. */
  lemma PlaceKeeps(w: World, w': World, x: Id, e: Entity, p: Vec)
    requires ZonesOk(w) && GhostsOk(w) && Named(w) && w.entities.Keys == w.entityZone.Keys
    requires Stands(w, x, e, p) && forall y :: y in w.entities && y != x ==> LiveOk(w, y)
    requires w' == w.(objs := w.objs[e := w.objs[e].(position := p)])
    ensures Inv(w')
  {
    PlaceZones(w, w');
    PlaceNamed(w, w', e, p);
    PlaceAgree(w, w', x, e, p);
    PlaceGhosts(w, w');
  }

  /** `x` is in place except that its object still has to take position `p`. */
  ghost predicate Stands(w: World, x: Id, e: Entity, p: Vec) {
    && IsReal(x) && x in w.entities && w.entities[x] == e && e in w.objs && w.objs[e].id == x
    && x in w.entityZone && w.entityZone[x] in w.zones
    && x in w.zones[w.entityZone[x]].entities && w.zones[w.entityZone[x]].entities[x] == e
    && x in w.zones[w.entityZone[x]].grid.positions && w.zones[w.entityZone[x]].grid.positions[x] == p
  }

  lemma PlaceZones(w: World, w': World)
    requires ZonesOk(w) && w'.zones == w.zones && w'.aoiIndex == w.aoiIndex && w'.ghostStore == w.ghostStore
    ensures ZonesOk(w')
  {
    forall y | y in w'.zones ensures ZoneOk(w', y) { assert ZoneOk(w, y); }
    forall y | y in w'.aoiIndex ensures IndexOk(w', y) { assert IndexOk(w, y); }
  }

  lemma PlaceNamed(w: World, w': World, e: Entity, p: Vec)
    requires Named(w) && w'.zones == w.zones && e in w.objs && w'.objs == w.objs[e := w.objs[e].(position := p)]
    ensures Named(w')
  {
  }

  lemma PlaceAgree(w: World, w': World, x: Id, e: Entity, p: Vec)
    requires w.entities.Keys == w.entityZone.Keys && Stands(w, x, e, p)
    requires forall y :: y in w.entities && y != x ==> LiveOk(w, y)
    requires w' == w.(objs := w.objs[e := w.objs[e].(position := p)])
    ensures Agree(w')
  {
    forall y | y in w'.entities ensures LiveOk(w', y) { if y != x { assert LiveOk(w, y); } }
  }

  lemma PlaceGhosts(w: World, w': World)
    requires GhostsOk(w) && w'.zones == w.zones && w'.aoiIndex == w.aoiIndex
    requires w'.ghostStore == w.ghostStore && w'.ghosts == w.ghosts
    ensures GhostsOk(w')
  {
    forall y, g | y in w'.ghostStore && g in w'.ghostStore[y] ensures MirrorOk(w', y, g) { assert MirrorOk(w, y, g); }
  }

  // ---------- every step, every run ----------

  lemma GhostStepKeeps(w: World, op: Op)
    requires Inv(w) && (op.Report? || op.Timeout? || op.ExpireOne?)
    ensures Inv(Step(w, op))
  {
    match op
    case ExpireOne(gid, now) => ExpireKeeps(w, gid, now);
    case Report(z, n, x, p, now) => ReportKeeps(w, z, n, x, p, now);
    case Timeout(z, gid, now) => TimeoutKeeps(w, z, gid, now);
  }

  lemma PeerStepKeeps(w: World, op: Op)
    requires Inv(w) && (op.PeerEnter? || op.PeerLeave? || op.PeerUpdate?)
    ensures Inv(Step(w, op))
  {
    match op
    case PeerEnter(z, x, p, now) => PeerEnterKeeps(w, z, x, p, now);
    case PeerLeave(z, x) => PeerLeaveKeeps(w, z, x);
    case PeerUpdate(z, x, p, now) => PeerUpdateKeeps(w, z, x, p, now);
  }

  lemma EntityStepKeeps(w: World, op: Op)
    requires Inv(w) && Enabled(w, op)
    requires op.Add? || op.Remove? || op.MoveTo? || op.DetectOne? || op.SweepOne?
    ensures Inv(Step(w, op))
  {
    match op
    case Add(e, v) => AddKeeps(w, e, v);
    case Remove(x) => RemoveKeeps(w, x);
    case MoveTo(x, p) => MoveKeepsInv(w, x, p);
    case DetectOne(z, x, now) => DetectKeeps(w, z, x, now);
    case SweepOne(x, now) => SweepKeeps(w, x, now);
  }

  lemma ZoneStepKeeps(w: World, op: Op)
    requires Inv(w) && Enabled(w, op) && (op.Assign? || op.Release? || op.Load?)
    ensures Inv(Step(w, op))
  {
    match op
    case Assign(zone) => AssignKeeps(w, zone);
    case Release(z) => ReleaseKeeps(w, z);
    case Load(z, saved, order) => LoadKeeps(w, z, saved, order);
  }

  lemma QuietStepKeeps(w: World, op: Op)
    requires Inv(w) && (op.ObserveOne? || op.Disconnect? || op.Reconnect? || op.Take?)
    ensures Inv(Step(w, op))
  {
    match op
    case ObserveOne(z, x, spawns, despawns) => QuietKeeps(w, Observe(w, z, x, spawns, despawns));
    case Disconnect(x, now) => QuietKeeps(w, MarkDisconnected(w, x, now));
    case Reconnect(x) => QuietKeeps(w, MarkReconnected(w, x));
    case Take => QuietKeeps(w, TakeEvent(w));
  }

  lemma StepKeeps(w: World, op: Op)
    requires Enabled(w, op) && Inv(w)
    ensures Inv(Step(w, op))
  {
    if op.Assign? || op.Release? || op.Load? {
      ZoneStepKeeps(w, op);
    } else if op.Add? || op.Remove? || op.MoveTo? || op.DetectOne? || op.SweepOne? {
      EntityStepKeeps(w, op);
    } else if op.ObserveOne? || op.Disconnect? || op.Reconnect? || op.Take? {
      QuietStepKeeps(w, op);
    } else if op.Report? || op.Timeout? || op.ExpireOne? {
      GhostStepKeeps(w, op);
    } else {
      PeerStepKeeps(w, op);
    }
  }

  lemma FrontEnabled(w: World, ops: seq<Op>)
    requires AllEnabled(w, ops) && ops != []
    ensures AllEnabled(w, ops[..|ops| - 1]) && Enabled(Run(w, ops[..|ops| - 1]), ops[|ops| - 1])
  {
    var front := ops[..|ops| - 1];
    assert forall i :: 0 <= i < |front| ==> front[i] == ops[i] && front[..i] == ops[..i];
  }

  /** Every run, from any state in order, ends in a state in order. */
  lemma {:induction false} RunKeeps(w: World, ops: seq<Op>)
    requires Inv(w) && AllEnabled(w, ops)
    ensures Inv(Run(w, ops))
    decreases |ops|
  {
    if ops != [] {
      FrontEnabled(w, ops);
      RunKeeps(w, ops[..|ops| - 1]);
      StepKeeps(Run(w, ops[..|ops| - 1]), ops[|ops| - 1]);
    }
  }

  /** Map agreement over every run from an empty server. */
  lemma MapsAgreeInEveryRun(ops: seq<Op>)
    requires AllEnabled(Start(), ops)
    ensures var w := Run(Start(), ops);
            w.entities.Keys == w.entityZone.Keys && forall x :: x in w.entities ==> LiveOk(w, x)
  {
    RunKeeps(Start(), ops);
  }
}
