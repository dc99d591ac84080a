/** Entities as objects. */
module Objects {
  import opened Ids

  /** What an entity object holds.  `autonomous` says that it has a lifecycle. */
  datatype EntityVal = EntityVal(id: Id, typ: string, position: Vec, zoneId: ZoneId, runtimeId: string, autonomous: bool)

  const NO_ENTITY := EntityVal("", "", ORIGIN, "", "", false)

  class Entity {
    const id: Id
    const typ: string
    const autonomous: bool
    var position: Vec
    var zoneId: ZoneId
    var runtimeId: string

    constructor (id: Id, typ: string, runtimeId: string, autonomous: bool)
      ensures Val() == EntityVal(id, typ, ORIGIN, "", runtimeId, autonomous)
    {
      this.id, this.typ, this.autonomous := id, typ, autonomous;
      this.position, this.zoneId, this.runtimeId := ORIGIN, "", runtimeId;
    }

    function Val(): EntityVal
      reads this
    {
      EntityVal(id, typ, position, zoneId, runtimeId, autonomous)
    }
  }
}

/** The state of one game server and every step that changes it, as values.

    Maps of the server hold pointers to entity objects; two maps that hold the same pointer see each
    other's updates, which go to `objs`.  Each step is what the source does to one entity under its
    lock; its loops are sequences of steps in the order the map happens to be iterated, so every run
    of the server is a run of steps. */
module Worlds {
  import opened Ids
  import opened Grids
  import GridHistory
  import Aoi
  import opened Objects

  const CELL_SIZE: Size := 100.0
  const AOI_RADIUS := 300.0
  const EMPTY_GRID := New(CELL_SIZE, AOI_RADIUS)
  const EVENT_CAPACITY := 4096
  const DEFAULT_ZONE := "default"
  /** Milliseconds. */
  const GHOST_TTL := 5000
  const RECONNECT_WINDOW := 30000

  // ---------- records ----------

  datatype Zone = Zone(id: ZoneId, runtimeId: string, gridX: int, gridY: int, size: real)

  datatype ZoneSim = ZoneSim(zone: Option<Zone>, grid: Grid, entities: map<Id, Entity>)

  /** An entry of the grid index: the zone's own grid, or one that only the index knows. */
  datatype IndexEntry = OfZone | Detached(grid: Grid)

  datatype AoiState = AoiState(visible: set<Id>, lastPosition: Vec)

  datatype GhostEntry = GhostEntry(remote: bool, entityId: Id, originZone: ZoneId, position: Vec, expiresAt: int)

  datatype Session = Active | Disconnected(at: int)

  datatype Kind = Spawn | Despawn | Moved

  datatype Event = Event(kind: Kind, space: string, observer: Id, subject: Id, typ: string, position: Vec)

  /** One call of publish and whether the channel had room. */
  datatype Attempt = Attempt(event: Event, accepted: bool)

  datatype World = World(
    zones: map<ZoneId, ZoneSim>,
    entities: map<Id, Entity>,
    entityZone: map<Id, ZoneId>,
    entityAOI: map<Id, AoiState>,
    ghosts: map<Id, GhostEntry>,
    aoiIndex: map<ZoneId, IndexEntry>,
    ghostStore: map<ZoneId, map<Id, GhostEntry>>,
    sessions: map<Id, Session>,
    channel: seq<Event>,
    // history: events taken by the consumer, every publish, and where in it each id was added
    taken: seq<Event>,
    log: seq<Attempt>,
    joined: map<Id, nat>,
    // what the entity pointers point to
    objs: map<Entity, EntityVal>)
  {
    function Obj(e: Entity): EntityVal {
      if e in objs then objs[e] else NO_ENTITY
    }

    /** The grid of zone `z` after `grid`; a zone that is not there stays absent. */
    function WithGrid(z: ZoneId, grid: Grid): (r: World)
      ensures r == this.(zones := r.zones)
      ensures r.zones.Keys == zones.Keys
      ensures forall y :: y in zones ==> r.zones[y].zone == zones[y].zone && r.zones[y].entities == zones[y].entities
    {
      if z in zones then this.(zones := zones[z := zones[z].(grid := grid)]) else this
    }

    function GridOf(z: ZoneId): Grid {
      if z in zones then zones[z].grid else EMPTY_GRID
    }

    /** The grid the index holds for `z`. */
    function IndexGrid(z: ZoneId): Grid {
      if z in aoiIndex && aoiIndex[z].Detached? then aoiIndex[z].grid else GridOf(z)
    }

    function WithIndexGrid(z: ZoneId, grid: Grid): (r: World)
      ensures r == this.(zones := r.zones, aoiIndex := r.aoiIndex)
      ensures r.zones.Keys == zones.Keys
      ensures forall y :: y in zones ==> r.zones[y].zone == zones[y].zone && r.zones[y].entities == zones[y].entities
    {
      if z in aoiIndex && aoiIndex[z].Detached? then this.(aoiIndex := aoiIndex[z := Detached(grid)])
      else WithGrid(z, grid)
    }

    /** Non-blocking send: accepted if the channel has room, dropped otherwise. */
    function Publish(ev: Event): World {
      var room := |channel| < EVENT_CAPACITY;
      this.(log := log + [Attempt(ev, room)], channel := if room then channel + [ev] else channel)
    }

    function PublishAll(evs: seq<Event>): (r: World)
      ensures r == this.(log := r.log, channel := r.channel)
      ensures |r.log| == |log| + |evs| && r.log[..|log|] == log
      ensures forall i :: 0 <= i < |evs| ==> r.log[|log| + i].event == evs[i]
      decreases |evs|
    {
      if evs == [] then this else PublishAll(evs[..|evs| - 1]).Publish(evs[|evs| - 1])
    }

    /** What the visibility pass finds around an entity of zone `z`. */
    ghost function Surroundings(z: ZoneId, x: Id): set<Id> {
      if z in zones && x in zones[z].entities
      then zones[z].grid.InRange(Obj(zones[z].entities[x]).position, AOI_RADIUS)
      else {}
    }

    function Visible(x: Id): set<Id> {
      if x in entityAOI then entityAOI[x].visible else {}
    }

    /** The space an id's live entity belongs to. */
    function SpaceOf(x: Id): string {
      if x in entities then Obj(entities[x]).runtimeId else ""
    }
  }

  lemma PublishMore(w: World, evs: seq<Event>, ev: Event)
    ensures w.PublishAll(evs + [ev]) == w.PublishAll(evs).Publish(ev)
  {
    assert (evs + [ev])[..|evs|] == evs;
  }

  lemma {:induction false} PublishBoth(w: World, evs: seq<Event>, more: seq<Event>)
    ensures w.PublishAll(evs + more) == w.PublishAll(evs).PublishAll(more)
    decreases |more|
  {
    if more == [] {
      assert evs + more == evs;
    } else {
      var front, ev := more[..|more| - 1], more[|more| - 1];
      PublishBoth(w, evs, front);
      assert evs + more == (evs + front) + [ev];
      PublishMore(w, evs + front, ev);
    }
  }

  lemma PublishedIn(w: World, evs: seq<Event>)
    ensures forall i :: |w.log| <= i < |w.PublishAll(evs).log| ==> w.PublishAll(evs).log[i].event in evs
  {
    var log := w.PublishAll(evs).log;
    forall i | |w.log| <= i < |log| ensures log[i].event in evs {
      var k := i - |w.log|;
      assert log[|w.log| + k].event == evs[k];
    }
  }

  // ---------- zones ----------

  function AssignZone(w: World, zone: Zone): (r: World)
    ensures r == w.(zones := r.zones, aoiIndex := r.aoiIndex, ghostStore := r.ghostStore)
  {
    if zone.id in w.zones then w
    else w.(zones := w.zones[zone.id := ZoneSim(Some(zone), EMPTY_GRID, map[])],
            aoiIndex := w.aoiIndex[zone.id := OfZone],
            ghostStore := w.ghostStore[zone.id := map[]])
  }

  function ReleaseZone(w: World, z: ZoneId): (r: World)
    ensures r == w.(zones := r.zones, entities := r.entities, entityZone := r.entityZone, entityAOI := r.entityAOI, ghosts := r.ghosts, aoiIndex := r.aoiIndex, ghostStore := r.ghostStore)
  {
    if z !in w.zones then w
    else
      var gone := set x | x in w.entityZone && w.entityZone[x] == z;
      w.(zones := w.zones - {z},
         entities := w.entities - gone,
         entityZone := w.entityZone - gone,
         entityAOI := w.entityAOI - gone,
         ghosts := map x | x in w.ghosts && w.ghosts[x].originZone != z :: w.ghosts[x],
         aoiIndex := w.aoiIndex - {z},
         ghostStore := w.ghostStore - {z})
  }

  // ---------- entities ----------

  function ZoneFor(v: EntityVal): ZoneId {
    if v.zoneId == "" then DEFAULT_ZONE else v.zoneId
  }

  /** A zone nobody assigned springs up on first use, outside the index. */
  function EnsureZone(w: World, z: ZoneId): (r: World)
    ensures r == w.(zones := r.zones)
  {
    if z in w.zones then w else w.(zones := w.zones[z := ZoneSim(None, EMPTY_GRID, map[])])
  }

  /** The space is the zone's, whatever the caller supplied. */
  function Placed(sim: ZoneSim, v: EntityVal): EntityVal {
    var u := v.(zoneId := ZoneFor(v));
    if sim.zone.Some? && sim.zone.value.runtimeId != "" then u.(runtimeId := sim.zone.value.runtimeId) else u
  }

  function AddEntity(w: World, e: Entity, v: EntityVal): (r: World)
    ensures r == w.(objs := r.objs, zones := r.zones, entities := r.entities, entityZone := r.entityZone, entityAOI := r.entityAOI, joined := r.joined)
  {
    var z := ZoneFor(v);
    var w1 := EnsureZone(w, z);
    var sim := w1.zones[z];
    w1.(objs := w.objs[e := Placed(sim, v)],
        zones := w1.zones[z := sim.(entities := sim.entities[v.id := e], grid := sim.grid.Enter(v.id, v.position))],
        entities := w.entities[v.id := e],
        entityZone := w.entityZone[v.id := z],
        entityAOI := w.entityAOI[v.id := AoiState({}, v.position)],
        joined := w.joined[v.id := |w.log|])
  }

  function RemoveEntity(w: World, x: Id): (r: World)
    ensures r == w.(zones := r.zones, entities := r.entities, entityAOI := r.entityAOI, entityZone := r.entityZone)
  {
    if x !in w.entityZone then w
    else
      var z := w.entityZone[x];
      var w1 :=
        if z in w.zones then
          var sim := w.zones[z];
          w.(zones := w.zones[z := sim.(entities := sim.entities - {x}, grid := sim.grid.Leave(x))])
        else w;
      w1.(entities := w.entities - {x}, entityAOI := w.entityAOI - {x}, entityZone := w.entityZone - {x})
  }

  // ---------- movement ----------

  /** The Move events of one move, in the order EntitiesInRange lists the observers. */
  function MoveEvents(space: string, x: Id, p: Vec, observers: seq<Id>): (evs: seq<Event>)
    ensures forall ev :: ev in evs ==> ev.kind.Moved? && ev.subject == x && ev.observer != x && ev.observer in observers
  {
    if observers == [] then []
    else
      var o := observers[|observers| - 1];
      MoveEvents(space, x, p, observers[..|observers| - 1])
      + if o == x then [] else [Event(Moved, space, o, x, "", p)]
  }

  /** The sorted listing of a set of ids. */
  ghost function Sorted(S: set<Id>): (s: seq<Id>)
    ensures SortedListing(s, S)
  {
    if S == {} then [] else var x :| x in S; Aoi.InsertSorted(x, Sorted(S - {x}))
  }

  ghost function EnqueueMove(w: World, x: Id, p: Vec): (r: World)
    ensures r == w.(log := r.log, channel := r.channel)
    ensures |w.log| <= |r.log| && r.log[..|w.log|] == w.log
    ensures forall i :: |w.log| <= i < |r.log| ==> r.log[i].event.kind.Moved?
  {
    if x !in w.entityZone || w.entityZone[x] !in w.zones then w
    else
      var near := w.GridOf(w.entityZone[x]).InRange(p, AOI_RADIUS);
      var evs := MoveEvents(w.SpaceOf(x), x, p, Sorted(near));
      PublishedIn(w, evs);
      w.PublishAll(evs)
  }

  /** A client's position packet, or an OnSimulate that moved its entity. */
  ghost function MoveEntity(w: World, x: Id, p: Vec): (r: World)
    ensures r == w.(log := r.log, channel := r.channel, objs := r.objs, zones := r.zones)
    ensures x in w.entities ==> r.objs == w.objs[w.entities[x] := w.Obj(w.entities[x]).(position := p)]
    ensures x !in w.entities ==> r.objs == w.objs
    ensures |w.log| <= |r.log| && r.log[..|w.log|] == w.log
    ensures forall i :: |w.log| <= i < |r.log| ==> r.log[i].event.kind.Moved?
  {
    if x !in w.entities then w
    else
      var e := w.entities[x];
      var w1 := w.(objs := w.objs[e := w.Obj(e).(position := p)]);
      var w2 :=
        if x in w.entityZone then w1.WithGrid(w.entityZone[x], w.GridOf(w.entityZone[x]).Move(x, p)) else w1;
      EnqueueMove(w2, x, p)
  }

  // ---------- the per-zone passes of a tick ----------

  /** detectZoneBoundaries for one entity: leave a ghost behind when it has changed cells. */
  function Detect(w: World, z: ZoneId, x: Id, now: int): (r: World)
    ensures r == w.(zones := r.zones, ghosts := r.ghosts)
  {
    if z !in w.zones || x !in w.zones[z].entities || x !in w.entityAOI then w
    else
      var sim := w.zones[z];
      var last := w.entityAOI[x].lastPosition;
      if sim.grid.CellOf(last) == sim.grid.CellOf(w.Obj(sim.entities[x]).position) then w
      else
        w.WithGrid(z, sim.grid.Enter(LocalGhost(x), last))
        .(ghosts := w.ghosts[LocalGhost(x) := GhostEntry(false, x, z, last, now + GHOST_TTL)])
  }

  function SpawnEvents(w: World, space: string, x: Id, order: seq<Id>): seq<Event> {
    if order == [] then []
    else
      var y := order[|order| - 1];
      SpawnEvents(w, space, x, order[..|order| - 1])
      + if y in w.Visible(x) || y == x || y !in w.entities then []
        else [Event(Spawn, space, x, y, w.Obj(w.entities[y]).typ, w.Obj(w.entities[y]).position)]
  }

  function DespawnEvents(current: set<Id>, space: string, x: Id, order: seq<Id>): seq<Event> {
    if order == [] then []
    else
      var y := order[|order| - 1];
      DespawnEvents(current, space, x, order[..|order| - 1])
      + if y in current then [] else [Event(Despawn, space, x, y, "", ORIGIN)]
  }

  lemma SpawnEventsMore(w: World, space: string, x: Id, order: seq<Id>, y: Id)
    ensures SpawnEvents(w, space, x, order + [y]) ==
            if y in w.Visible(x) || y == x || y !in w.entities then SpawnEvents(w, space, x, order)
            else SpawnEvents(w, space, x, order) + [Event(Spawn, space, x, y, w.Obj(w.entities[y]).typ, w.Obj(w.entities[y]).position)]
  {
    assert (order + [y])[..|order|] == order;
  }

  lemma DespawnEventsMore(current: set<Id>, space: string, x: Id, order: seq<Id>, y: Id)
    ensures DespawnEvents(current, space, x, order + [y]) ==
            if y in current then DespawnEvents(current, space, x, order)
            else DespawnEvents(current, space, x, order) + [Event(Despawn, space, x, y, "", ORIGIN)]
  {
    assert (order + [y])[..|order|] == order;
  }

  /** updateVisibility for one entity: `spawns` and `despawns` are the orders in which the two maps are iterated. */
  ghost function Observe(w: World, z: ZoneId, x: Id, spawns: seq<Id>, despawns: seq<Id>): (r: World)
    ensures r == w.(log := r.log, channel := r.channel, entityAOI := r.entityAOI)
  {
    if z !in w.zones || x !in w.zones[z].entities then w
    else
      var v := w.Obj(w.zones[z].entities[x]);
      var current := w.Surroundings(z, x);
      w.PublishAll(SpawnEvents(w, v.runtimeId, x, spawns) + DespawnEvents(current, v.runtimeId, x, despawns))
      .(entityAOI := w.entityAOI[x := AoiState(current, v.position)])
  }

  /** sweepGhosts for one local ghost. */
  function ExpireGhost(w: World, gid: Id, now: int): (r: World)
    ensures r == w.(zones := r.zones, ghosts := r.ghosts)
  {
    if gid !in w.ghosts || now <= w.ghosts[gid].expiresAt then w
    else
      var z := w.ghosts[gid].originZone;
      w.WithGrid(z, w.GridOf(z).Leave(gid)).(ghosts := w.ghosts - {gid})
  }

  // ---------- sessions ----------

  function MarkDisconnected(w: World, x: Id, now: int): (r: World)
    ensures r == w.(sessions := r.sessions)
  {
    if x in w.entities then w.(sessions := w.sessions[x := Disconnected(now)]) else w
  }

  function MarkReconnected(w: World, x: Id): (r: World)
    ensures r == w.(sessions := r.sessions)
  {
    w.(sessions := w.sessions[x := Active])
  }

  /** `x` is marked as disconnected and its time to reconnect is over. */
  predicate Due(w: World, x: Id, now: int) {
    x in w.sessions && w.sessions[x].Disconnected? && now - w.sessions[x].at > RECONNECT_WINDOW
  }

  /** The index holds the zone's own grid. */
  predicate OwnIndex(w: World, z: ZoneId) {
    z in w.aoiIndex && w.aoiIndex[z].OfZone?
  }

  /** SweepDisconnected for one session.  The zone's own entity map is left alone. */
  function SweepSession(w: World, x: Id, now: int): (r: World)
    ensures r == w.(zones := r.zones, aoiIndex := r.aoiIndex, entities := r.entities, entityAOI := r.entityAOI, entityZone := r.entityZone, sessions := r.sessions)
  {
    if !Due(w, x, now) then w
    else
      var w1 :=
        if x in w.entityZone && w.entityZone[x] in w.aoiIndex
        then w.WithIndexGrid(w.entityZone[x], w.IndexGrid(w.entityZone[x]).Leave(x)) else w;
      w1.(entities := w.entities - {x}, entityAOI := w.entityAOI - {x},
          entityZone := w.entityZone - {x}, sessions := w.sessions - {x})
  }

  // ---------- ghosts of neighbouring servers ----------

  predicate Mirrors(w: World, z: ZoneId) {
    z in w.aoiIndex && z in w.ghostStore
  }

  function StoreGhost(w: World, z: ZoneId, x: Id, origin: ZoneId, p: Vec, now: int): (r: World)
    ensures r == w.(ghostStore := r.ghostStore)
  {
    if z !in w.ghostStore then w
    else w.(ghostStore := w.ghostStore[z :=
              w.ghostStore[z][RemoteGhost(x) := GhostEntry(true, x, origin, p, now + GHOST_TTL * 6)]])
  }

  /** ReconcileNeighborGhosts for one reported entity. */
  function ReportGhost(w: World, owner: ZoneId, neighbor: ZoneId, x: Id, p: Vec, now: int): (r: World)
    ensures r == w.(zones := r.zones, aoiIndex := r.aoiIndex, ghostStore := r.ghostStore)
  {
    if !Mirrors(w, owner) || owner !in w.zones || w.zones[owner].zone.None? then w
    else
      var grid, gid := w.IndexGrid(owner), RemoteGhost(x);
      StoreGhost(w.WithIndexGrid(owner, if gid in w.ghostStore[owner] then grid.Move(gid, p) else grid.Enter(gid, p)),
                 owner, x, neighbor, p, now)
  }

  /** ReconcileNeighborGhosts for one stored ghost that was not reported. */
  function TimeoutGhost(w: World, owner: ZoneId, gid: Id, now: int): (r: World)
    ensures r == w.(zones := r.zones, aoiIndex := r.aoiIndex, ghostStore := r.ghostStore)
  {
    if !Mirrors(w, owner) || owner !in w.zones || w.zones[owner].zone.None? || gid !in w.ghostStore[owner]
       || !w.ghostStore[owner][gid].remote || now <= w.ghostStore[owner][gid].expiresAt then w
    else
      w.WithIndexGrid(owner, w.IndexGrid(owner).Leave(gid))
      .(ghostStore := w.ghostStore[owner := w.ghostStore[owner] - {gid}])
  }

  /** ApplyEntityEnter. */
  function GhostEnter(w: World, z: ZoneId, x: Id, p: Vec, now: int): (r: World)
    ensures r == w.(zones := r.zones, aoiIndex := r.aoiIndex, ghostStore := r.ghostStore)
  {
    if !Mirrors(w, z) then w
    else StoreGhost(w.WithIndexGrid(z, w.IndexGrid(z).Enter(RemoteGhost(x), p)), z, x, z, p, now)
  }

  /** ApplyEntityLeave. */
  function GhostLeave(w: World, z: ZoneId, x: Id): (r: World)
    ensures r == w.(zones := r.zones, aoiIndex := r.aoiIndex, ghostStore := r.ghostStore)
  {
    if !Mirrors(w, z) then w
    else w.WithIndexGrid(z, w.IndexGrid(z).Leave(RemoteGhost(x)))
         .(ghostStore := w.ghostStore[z := w.ghostStore[z] - {RemoteGhost(x)}])
  }

  /** ApplyEntityUpdate. */
  function GhostUpdate(w: World, z: ZoneId, x: Id, p: Vec, now: int): (r: World)
    ensures r == w.(zones := r.zones, aoiIndex := r.aoiIndex, ghostStore := r.ghostStore)
  {
    if !Mirrors(w, z) || RemoteGhost(x) !in w.ghostStore[z] then w
    else
      var gid := RemoteGhost(x);
      w.WithIndexGrid(z, w.IndexGrid(z).Move(gid, p))
      .(ghostStore := w.ghostStore[z := w.ghostStore[z][gid :=
          w.ghostStore[z][gid].(position := p, expiresAt := now + GHOST_TTL * 6)]])
  }

  /** The first half of LoadZoneSnapshot: an index entry, with a grid of its own, for a zone that has none. */
  function LoadIndex(w: World, z: ZoneId, saved: Option<GridHistory.Saved>, order: seq<Id>): (r: World)
    ensures r == w.(aoiIndex := r.aoiIndex, ghostStore := r.ghostStore)
  {
    if z in w.aoiIndex then w
    else
      var grid := if saved.Some? && forall id | id in order :: id in saved.value.positions
                  then GridHistory.Rebuild(saved.value, order) else EMPTY_GRID;
      w.(aoiIndex := w.aoiIndex[z := Detached(grid)], ghostStore := w.ghostStore[z := map[]])
  }

  /** The event consumer receives the oldest event. */
  function TakeEvent(w: World): (r: World)
    ensures r == w.(channel := r.channel, taken := r.taken)
  {
    if w.channel == [] then w else w.(channel := w.channel[1..], taken := w.taken + [w.channel[0]])
  }

  // ---------- runs ----------

  datatype Op =
    | Assign(zone: Zone)
    | Release(z: ZoneId)
    | Add(e: Entity, v: EntityVal)
    | Remove(x: Id)
    | MoveTo(x: Id, p: Vec)
    | DetectOne(z: ZoneId, x: Id, now: int)
    | ObserveOne(z: ZoneId, x: Id, spawns: seq<Id>, despawns: seq<Id>)
    | ExpireOne(gid: Id, now: int)
    | Disconnect(x: Id, now: int)
    | Reconnect(x: Id)
    | SweepOne(x: Id, now: int)
    | Report(z: ZoneId, neighbor: ZoneId, x: Id, p: Vec, now: int)
    | Timeout(z: ZoneId, gid: Id, now: int)
    | PeerEnter(z: ZoneId, x: Id, p: Vec, now: int)
    | PeerLeave(z: ZoneId, x: Id)
    | PeerUpdate(z: ZoneId, x: Id, p: Vec, now: int)
    | Load(z: ZoneId, saved: Option<GridHistory.Saved>, order: seq<Id>)
    | Take

  ghost function Step(w: World, op: Op): World {
    match op
    case Assign(zone) => AssignZone(w, zone)
    case Release(z) => ReleaseZone(w, z)
    case Add(e, v) => AddEntity(w, e, v)
    case Remove(x) => RemoveEntity(w, x)
    case MoveTo(x, p) => MoveEntity(w, x, p)
    case DetectOne(z, x, now) => Detect(w, z, x, now)
    case ObserveOne(z, x, spawns, despawns) => Observe(w, z, x, spawns, despawns)
    case ExpireOne(gid, now) => ExpireGhost(w, gid, now)
    case Disconnect(x, now) => MarkDisconnected(w, x, now)
    case Reconnect(x) => MarkReconnected(w, x)
    case SweepOne(x, now) => SweepSession(w, x, now)
    case Report(z, n, x, p, now) => ReportGhost(w, z, n, x, p, now)
    case Timeout(z, gid, now) => TimeoutGhost(w, z, gid, now)
    case PeerEnter(z, x, p, now) => GhostEnter(w, z, x, p, now)
    case PeerLeave(z, x) => GhostLeave(w, z, x)
    case PeerUpdate(z, x, p, now) => GhostUpdate(w, z, x, p, now)
    case Load(z, saved, order) => LoadIndex(w, z, saved, order)
    case Take => TakeEvent(w)
  }

  // ---------- loops as sequences of steps ----------

  /** `x` has a lifecycle, and that has left it elsewhere. */
  predicate Wants(w: World, moves: map<Id, Vec>, x: Id) {
    x in w.entities && w.Obj(w.entities[x]).autonomous && x in moves && moves[x] != w.Obj(w.entities[x]).position
  }

  ghost function SimulateOne(w: World, moves: map<Id, Vec>, x: Id): World {
    if Wants(w, moves, x) then MoveEntity(w, x, moves[x]) else w
  }

  /** simulate, with the positions the lifecycles ask for. */
  ghost function Simulated(w: World, moves: map<Id, Vec>, order: seq<Id>): World {
    if order == [] then w else SimulateOne(Simulated(w, moves, order[..|order| - 1]), moves, order[|order| - 1])
  }

  lemma SimulatedMore(w: World, moves: map<Id, Vec>, order: seq<Id>, x: Id)
    ensures Simulated(w, moves, order + [x]) == SimulateOne(Simulated(w, moves, order), moves, x)
  {
    assert (order + [x])[..|order|] == order;
  }

  function DetectOps(z: ZoneId, order: seq<Id>, now: int): seq<Op> {
    seq(|order|, i requires 0 <= i < |order| => DetectOne(z, order[i], now))
  }

  function ExpireOps(order: seq<Id>, now: int): seq<Op> {
    seq(|order|, i requires 0 <= i < |order| => ExpireOne(order[i], now))
  }
}
