/** The game server as the source has it: one object whose maps are updated in place and whose
    entities are objects.  Each method is proved to make the steps of module Worlds that its name
    says, in some order of the maps it iterates; what those steps keep is proved there. */
module Games {
  import opened Ids
  import opened Grids
  import opened Objects
  import opened Worlds
  import opened Invariants
  import opened Sessions
  import opened Clients
  import Ghosts
  import Handover
  import Ticks
  import Promises
  import Passes
  import Aoi
  import GridHistory
  import Spaces
  import Visibility

  /** A control command, as enqueued. */
  datatype Command = AddCommand(e: Entity) | RemoveCommand(x: Id)

  /** An inbound packet: the position it carries, or None if it does not decode to one. */
  datatype Packet = Packet(client: Id, position: Option<Vec>)

  /** The most commands and packets one tick handles. */
  const CMD_BUFFER: nat := 256
  const MAX_PACKETS: nat := 1024

  function Min(a: nat, b: nat): nat {
    if a < b then a else b
  }

  class Game {
    var cmds: seq<Command>
    var inbox: seq<Packet>
    var zones: map<ZoneId, ZoneSim>
    var entities: map<Id, Entity>
    var entityZone: map<Id, ZoneId>
    var entityAOI: map<Id, AoiState>
    var ghosts: map<Id, GhostEntry>
    var aoiIndex: map<ZoneId, IndexEntry>
    var ghostStore: map<ZoneId, map<Id, GhostEntry>>
    var sessions: map<Id, Session>
    var channel: seq<Event>
    // history, and every entity object the maps have held
    ghost var taken: seq<Event>
    ghost var log: seq<Attempt>
    ghost var joined: map<Id, nat>
    ghost var known: set<Entity>

    ghost function Abs(): World
      reads this, known
    {
      World(zones, entities, entityZone, entityAOI, ghosts, aoiIndex, ghostStore, sessions, channel,
            taken, log, joined, Objs())
    }

    ghost function Objs(): map<Entity, EntityVal>
      reads this`known, known
    {
      map e | e in known :: e.Val()
    }

    /** Every entity pointer in the maps is one of the known objects. */
    ghost predicate Tracked()
      reads this
    {
      && (forall x :: x in entities ==> entities[x] in known)
      && (forall z, x :: z in zones && x in zones[z].entities ==> zones[z].entities[x] in known)
    }

    /** A server in order tracks its entities. */
    lemma InOrder()
      requires Inv(Abs())
      ensures Tracked()
    {
      forall x | x in entities ensures entities[x] in known { assert LiveOk(Abs(), x); }
    }

    constructor ()
      ensures Tracked() && Abs() == Start() && Inv(Abs()) && known == {}
    {
      cmds, inbox := [], [];
      zones, entities, entityZone, entityAOI, ghosts := map[], map[], map[], map[], map[];
      aoiIndex, ghostStore, sessions, channel := map[], map[], map[], [];
      taken, log, joined, known := [], [], map[], {};
    }

    /** Replaces what the server knows of one zone. */
    method SetZone(z: ZoneId, sim: ZoneSim)
      requires Tracked() && forall x :: x in sim.entities ==> sim.entities[x] in known
      modifies this`zones
      ensures Tracked() && Abs() == old(Abs()).(zones := old(zones)[z := sim])
    {
      zones := zones[z := sim];
    }

    // ---------- zones ----------

    /** True if the zone was new; a zone that is already there is a conflict and changes nothing. */
    method AssignZone(zone: Zone) returns (ok: bool)
      requires Tracked()
      modifies this`zones, this`aoiIndex, this`ghostStore
      ensures Tracked() && ok == (zone.id !in old(zones))
      ensures Abs() == Worlds.AssignZone(old(Abs()), zone)
    {
      ok := zone.id !in zones;
      if ok {
        SetZone(zone.id, ZoneSim(Some(zone), EMPTY_GRID, map[]));
        aoiIndex := aoiIndex[zone.id := OfZone];
        ghostStore := ghostStore[zone.id := map[]];
      }
    }

    // ---------- entities ----------

    method AddEntity(e: Entity)
      requires Tracked()
      modifies this`zones, this`entities, this`entityZone, this`entityAOI, this`joined, this`known, e
      ensures Tracked() && known == old(known) + {e}
      ensures Abs() == Worlds.AddEntity(old(Abs()), e, old(e.Val()))
    {
      var z := if e.zoneId == "" then DEFAULT_ZONE else e.zoneId;
      if z !in zones {
        SetZone(z, ZoneSim(None, EMPTY_GRID, map[]));
      }
      PlaceObject(e, z, zones[z]);
      InsertEntity(e, z);
    }

    /** The object takes its zone and, if the zone enforces one, the zone's Space. */
    method PlaceObject(e: Entity, z: ZoneId, sim: ZoneSim)
      requires z == ZoneFor(e.Val())
      modifies this`known, e
      ensures known == old(known) + {e} && Objs() == old(Objs())[e := Placed(sim, old(e.Val()))]
      ensures e.Val() == Placed(sim, old(e.Val()))
    {
      e.zoneId := z;
      if sim.zone.Some? && sim.zone.value.runtimeId != "" {
        e.runtimeId := sim.zone.value.runtimeId;
      }
      known := known + {e};
    }

    method InsertEntity(e: Entity, z: ZoneId)
      requires Tracked() && z in zones && e in known
      modifies this`zones, this`entities, this`entityZone, this`entityAOI, this`joined
      ensures Tracked()
      ensures var w := old(Abs());
              Abs() == w.(zones := w.zones[z := w.zones[z].(entities := w.zones[z].entities[e.id := e],
                                                             grid := w.zones[z].grid.Enter(e.id, e.position))],
                          entities := w.entities[e.id := e], entityZone := w.entityZone[e.id := z],
                          entityAOI := w.entityAOI[e.id := AoiState({}, e.position)],
                          joined := w.joined[e.id := |w.log|])
    {
      SetZone(z, zones[z].(entities := zones[z].entities[e.id := e], grid := zones[z].grid.Enter(e.id, e.position)));
      Remember(e, z);
    }

    /** Puts `e` into the server's own maps, with nothing visible yet. */
    method Remember(e: Entity, z: ZoneId)
      requires Tracked() && e in known
      modifies this`entities, this`entityZone, this`entityAOI, this`joined
      ensures Tracked()
      ensures var w := old(Abs());
              Abs() == w.(entities := w.entities[e.id := e], entityZone := w.entityZone[e.id := z],
                          entityAOI := w.entityAOI[e.id := AoiState({}, e.position)],
                          joined := w.joined[e.id := |w.log|])
    {
      var x := e.id;
      entities, entityZone, entityAOI, joined :=
        entities[x := e], entityZone[x := z], entityAOI[x := AoiState({}, e.position)], joined[x := |log|];
    }

    method RemoveEntity(x: Id)
      requires Tracked()
      modifies this`zones, this`entities, this`entityAOI, this`entityZone
      ensures Tracked() && Abs() == Worlds.RemoveEntity(old(Abs()), x)
    {
      if x !in entityZone { return; }
      var z := entityZone[x];
      if z in zones {
        SetZone(z, zones[z].(entities := zones[z].entities - {x}, grid := zones[z].grid.Leave(x)));
      }
      Forget(x);
    }

    /** Takes `x` out of the server's own maps. */
    method Forget(x: Id)
      requires Tracked()
      modifies this`entities, this`entityAOI, this`entityZone
      ensures Tracked()
      ensures Abs() == old(Abs()).(entities := old(entities) - {x}, entityAOI := old(entityAOI) - {x},
                                   entityZone := old(entityZone) - {x})
    {
      entities, entityAOI, entityZone := entities - {x}, entityAOI - {x}, entityZone - {x};
    }

    // ---------- events ----------

    method Publish(ev: Event)
      modifies this`log, this`channel
      ensures Abs() == old(Abs()).Publish(ev)
    {
      log := log + [Attempt(ev, |channel| < EVENT_CAPACITY)];
      if |channel| < EVENT_CAPACITY { channel := channel + [ev]; }
    }

    /** Tells the observers in range that `x` has moved. */
    method EnqueueMove(x: Id, p: Vec)
      requires Tracked()
      modifies this`log, this`channel
      ensures Abs() == Worlds.EnqueueMove(old(Abs()), x, p)
    {
      if x !in entityZone || entityZone[x] !in zones { return; }
      var near := Observers(zones[entityZone[x]].grid, p);
      PublishMoves(if x in entities then entities[x].runtimeId else "", x, p, near);
    }

    static method Observers(grid: Grid, p: Vec) returns (near: seq<Id>)
      ensures near == Sorted(grid.InRange(p, AOI_RADIUS))
    {
      near := Aoi.InRangeOf(grid, p, AOI_RADIUS);
      SortedListingUnique(near, Sorted(grid.InRange(p, AOI_RADIUS)), grid.InRange(p, AOI_RADIUS));
    }

    method PublishMoves(space: string, x: Id, p: Vec, near: seq<Id>)
      modifies this`log, this`channel
      ensures Abs() == old(Abs()).PublishAll(MoveEvents(space, x, p, near))
    {
      ghost var w := Abs();
      for i := 0 to |near|
        invariant Abs() == w.PublishAll(MoveEvents(space, x, p, near[..i]))
      {
        assert near[..i + 1][..i] == near[..i];
        ghost var evs := MoveEvents(space, x, p, near[..i]);
        if near[i] != x {
          var ev := Event(Moved, space, near[i], x, "", p);
          Publish(ev);
          PublishMore(w, evs, ev);
          assert MoveEvents(space, x, p, near[..i + 1]) == evs + [ev];
        } else {
          assert MoveEvents(space, x, p, near[..i + 1]) == evs;
        }
      }
      assert near[..|near|] == near;
    }

    // ---------- movement ----------

    /** A client's position packet, or an OnSimulate that moved its entity. */
    method MoveEntity(x: Id, p: Vec)
      requires Tracked()
      modifies this`zones, this`log, this`channel, if x in entities then {entities[x]} else {}
      ensures Tracked() && Abs() == Worlds.MoveEntity(old(Abs()), x, p)
    {
      if x !in entities { return; }
      MoveObject(entities[x], p);
      if x in entityZone && entityZone[x] in zones {
        var z := entityZone[x];
        SetZone(z, zones[z].(grid := zones[z].grid.Move(x, p)));
      }
      EnqueueMove(x, p);
    }

    method MoveObject(e: Entity, p: Vec)
      requires e in known
      modifies e`position
      ensures Abs() == old(Abs()).(objs := old(Objs())[e := old(e.Val()).(position := p)])
    {
      e.position := p;
      assert Objs() == old(Objs())[e := old(e.Val()).(position := p)];
    }

    /** One entity of the simulation pass. */
    method SimulateEntity(x: Id, moves: map<Id, Vec>)
      requires Tracked() && x in entities
      modifies this`zones, this`log, this`channel, known
      ensures Tracked() && entities == old(entities) && known == old(known) && Abs() == SimulateOne(old(Abs()), moves, x)
    {
      if entities[x].autonomous && x in moves && moves[x] != entities[x].position { MoveEntity(x, moves[x]); }
    }

    /** simulate: every autonomous entity is asked once, in map order, where it wants to be; `moves`
        holds the answers of those that want to be elsewhere. */
    method Simulate(moves: map<Id, Vec>) returns (ghost order: seq<Id>)
      requires Tracked()
      modifies this`zones, this`log, this`channel, known
      ensures Tracked() && Visits(order, old(entities).Keys)
      ensures Abs() == Simulated(old(Abs()), moves, order)
    {
      order := [];
      ghost var w := Abs();
      var rest := entities.Keys;
      ghost var done: set<Id> := {};
      while rest != {}
        invariant Tracked() && entities == w.entities && rest !! done && rest + done == entities.Keys
        invariant Visits(order, done) && Abs() == Simulated(w, moves, order)
      {
        var x :| x in rest;
        SimulateEntity(x, moves);
        SimulatedMore(w, moves, order, x);
        VisitsMore(order, done, x);
        order := order + [x];
        rest, done := rest - {x}, done + {x};
      }
    }

    // ---------- the passes of a tick ----------

    method DetectEntity(z: ZoneId, x: Id, now: int)
      requires Tracked() && z in zones && x in zones[z].entities
      modifies this`zones, this`ghosts
      ensures Tracked() && Abs() == Detect(old(Abs()), z, x, now)
      ensures z in zones && zones[z].entities == old(zones)[z].entities
    {
      if x !in entityAOI { return; }
      var sim, last := zones[z], entityAOI[x].lastPosition;
      if sim.grid.CellOf(last) == sim.grid.CellOf(sim.entities[x].position) { return; }
      ghosts := ghosts[LocalGhost(x) := GhostEntry(false, x, z, last, now + GHOST_TTL)];
      SetZone(z, sim.(grid := sim.grid.Enter(LocalGhost(x), last)));
    }

    method DetectZoneBoundaries(z: ZoneId, now: int) returns (ghost order: seq<Id>)
      requires Tracked()
      modifies this`zones, this`ghosts
      ensures Tracked() && Visits(order, if z in old(zones) then old(zones)[z].entities.Keys else {})
      ensures Abs() == Run(old(Abs()), DetectOps(z, order, now))
    {
      order := [];
      if z !in zones { return; }
      ghost var w := Abs();
      var rest := zones[z].entities.Keys;
      ghost var done: set<Id> := {};
      while rest != {}
        invariant Tracked() && z in zones && zones[z].entities == w.zones[z].entities
        invariant rest !! done && rest + done == zones[z].entities.Keys && Visits(order, done)
        invariant Abs() == Run(w, DetectOps(z, order, now))
      {
        var x :| x in rest;
        DetectEntity(z, x, now);
        RunMore(w, DetectOps(z, order, now), DetectOne(z, x, now));
        assert DetectOps(z, order + [x], now) == DetectOps(z, order, now) + [DetectOne(z, x, now)];
        VisitsMore(order, done, x);
        order := order + [x];
        rest, done := rest - {x}, done + {x};
      }
    }

    method ExpireOneGhost(gid: Id, now: int)
      requires Tracked() && gid in ghosts
      modifies this`zones, this`ghosts
      ensures Tracked() && ghosts.Keys >= old(ghosts).Keys - {gid} && Abs() == ExpireGhost(old(Abs()), gid, now)
    {
      if now <= ghosts[gid].expiresAt { return; }
      var z := ghosts[gid].originZone;
      if z in zones { SetZone(z, zones[z].(grid := zones[z].grid.Leave(gid))); }
      ghosts := ghosts - {gid};
    }

    method SweepGhosts(now: int) returns (ghost order: seq<Id>)
      requires Tracked()
      modifies this`zones, this`ghosts
      ensures Tracked() && Visits(order, old(ghosts).Keys)
      ensures Abs() == Run(old(Abs()), ExpireOps(order, now))
    {
      order := [];
      ghost var w := Abs();
      var rest := ghosts.Keys;
      ghost var done: set<Id> := {};
      while rest != {}
        invariant Tracked() && rest <= ghosts.Keys && rest !! done && rest + done == w.ghosts.Keys && Visits(order, done)
        invariant Abs() == Run(w, ExpireOps(order, now))
      {
        var gid :| gid in rest;
        ExpireOneGhost(gid, now);
        RunMore(w, ExpireOps(order, now), ExpireOne(gid, now));
        assert ExpireOps(order + [gid], now) == ExpireOps(order, now) + [ExpireOne(gid, now)];
        VisitsMore(order, done, gid);
        order := order + [gid];
        rest, done := rest - {gid}, done + {gid};
      }
    }

    // ---------- sessions ----------

    method MarkDisconnected(x: Id, now: int)
      modifies this`sessions
      ensures Abs() == Worlds.MarkDisconnected(old(Abs()), x, now)
    {
      if x in entities { sessions := sessions[x := Disconnected(now)]; }
    }

    method MarkReconnected(x: Id)
      modifies this`sessions
      ensures Abs() == Worlds.MarkReconnected(old(Abs()), x)
    {
      sessions := sessions[x := Active];
    }

    method SweepOneSession(x: Id, now: int)
      requires Tracked() && x in sessions
      modifies this`zones, this`aoiIndex, this`entities, this`entityAOI, this`entityZone, this`sessions
      ensures Tracked() && Abs() == SweepSession(old(Abs()), x, now) && sessions.Keys >= old(sessions).Keys - {x}
    {
      if sessions[x].Active? || now - sessions[x].at <= RECONNECT_WINDOW { return; }
      if x in entityZone && entityZone[x] in aoiIndex {
        var z := entityZone[x];
        SetIndexGrid(z, IndexGrid(z).Leave(x));
      }
      Forget(x);
      sessions := sessions - {x};
    }

    method SweepNextSession(ghost w: World, ghost order: seq<Id>, x: Id, now: int) returns (ghost order': seq<Id>)
      requires Tracked() && x in sessions && Abs() == Run(w, SweepOps(order, now))
      modifies this`zones, this`aoiIndex, this`entities, this`entityAOI, this`entityZone, this`sessions
      ensures Tracked() && order' == order + [x] && sessions.Keys >= old(sessions).Keys - {x}
      ensures Abs() == Run(w, SweepOps(order', now))
    {
      SweepOneSession(x, now);
      SweepAnother(w, order, x, now);
      order' := order + [x];
    }

    method SweepDisconnected(now: int) returns (ghost order: seq<Id>)
      requires Tracked()
      modifies this`zones, this`aoiIndex, this`entities, this`entityAOI, this`entityZone, this`sessions
      ensures Tracked() && Visits(order, old(sessions).Keys)
      ensures Abs() == Run(old(Abs()), SweepOps(order, now))
    {
      order := [];
      ghost var w := Abs();
      var rest := sessions.Keys;
      ghost var done: set<Id> := {};
      while rest != {}
        invariant Tracked() && rest <= sessions.Keys && rest !! done && rest + done == w.sessions.Keys && Visits(order, done)
        invariant Abs() == Run(w, SweepOps(order, now))
      {
        var x :| x in rest;
        VisitsMore(order, done, x);
        order := SweepNextSession(w, order, x, now);
        rest, done := rest - {x}, done + {x};
      }
    }

    // ---------- the indexed grid of a zone ----------

    function IndexGrid(z: ZoneId): Grid
      reads this
    {
      if z in aoiIndex && aoiIndex[z].Detached? then aoiIndex[z].grid
      else if z in zones then zones[z].grid else EMPTY_GRID
    }

    method SetIndexGrid(z: ZoneId, grid: Grid)
      requires Tracked()
      modifies this`zones, this`aoiIndex
      ensures Tracked() && Abs() == old(Abs()).WithIndexGrid(z, grid)
    {
      if z in aoiIndex && aoiIndex[z].Detached? { aoiIndex := aoiIndex[z := Detached(grid)]; }
      else if z in zones { SetZone(z, zones[z].(grid := grid)); }
    }

    // ---------- ghosts of neighbouring servers ----------

    method ApplyEntityEnter(z: ZoneId, x: Id, p: Vec, now: int)
      requires Tracked()
      modifies this`zones, this`aoiIndex, this`ghostStore
      ensures Tracked() && Abs() == GhostEnter(old(Abs()), z, x, p, now)
    {
      if z !in aoiIndex || z !in ghostStore { return; }
      var gid := RemoteGhost(x);
      SetIndexGrid(z, IndexGrid(z).Enter(gid, p));
      ghostStore := ghostStore[z := ghostStore[z][gid := GhostEntry(true, x, z, p, now + GHOST_TTL * 6)]];
    }

    method ApplyEntityLeave(z: ZoneId, x: Id)
      requires Tracked()
      modifies this`zones, this`aoiIndex, this`ghostStore
      ensures Tracked() && Abs() == GhostLeave(old(Abs()), z, x)
    {
      if z !in aoiIndex || z !in ghostStore { return; }
      var gid := RemoteGhost(x);
      SetIndexGrid(z, IndexGrid(z).Leave(gid));
      ghostStore := ghostStore[z := ghostStore[z] - {gid}];
    }

    method ApplyEntityUpdate(z: ZoneId, x: Id, p: Vec, now: int)
      requires Tracked()
      modifies this`zones, this`aoiIndex, this`ghostStore
      ensures Tracked() && Abs() == GhostUpdate(old(Abs()), z, x, p, now)
    {
      if z !in aoiIndex || z !in ghostStore { return; }
      var gid := RemoteGhost(x);
      if gid !in ghostStore[z] { return; }
      SetIndexGrid(z, IndexGrid(z).Move(gid, p));
      ghostStore := ghostStore[z := ghostStore[z][gid := ghostStore[z][gid].(position := p, expiresAt := now + GHOST_TTL * 6)]];
    }

    // ---------- visibility ----------

    /** One candidate of the spawn loop. */
    method PublishSpawn(x: Id, space: string, y: Id, seen: set<Id>, ghost w: World, ghost order: seq<Id>)
      requires Tracked() && seen == w.Visible(x) && w.entities == entities && w.objs == Abs().objs
      requires Abs() == w.PublishAll(SpawnEvents(w, space, x, order))
      modifies this`log, this`channel
      ensures Abs() == w.PublishAll(SpawnEvents(w, space, x, order + [y]))
    {
      SpawnEventsMore(w, space, x, order, y);
      if y !in seen && y != x && y in entities {
        var ev := Event(Spawn, space, x, y, entities[y].typ, entities[y].position);
        Publish(ev);
        PublishMore(w, SpawnEvents(w, space, x, order), ev);
      }
    }

    method PublishSpawns(x: Id, space: string, current: set<Id>) returns (ghost order: seq<Id>)
      requires Tracked()
      modifies this`log, this`channel
      ensures Visits(order, current) && Abs() == old(Abs()).PublishAll(SpawnEvents(old(Abs()), space, x, order))
    {
      order := [];
      ghost var w := Abs();
      var seen := if x in entityAOI then entityAOI[x].visible else {};
      var rest := current;
      ghost var done: set<Id> := {};
      while rest != {}
        invariant rest !! done && rest + done == current && Visits(order, done)
        invariant Abs() == w.PublishAll(SpawnEvents(w, space, x, order))
      {
        var y :| y in rest;
        PublishSpawn(x, space, y, seen, w, order);
        VisitsMore(order, done, y);
        order := order + [y];
        rest, done := rest - {y}, done + {y};
      }
    }

    /** One candidate of the despawn loop. */
    method PublishDespawn(x: Id, space: string, y: Id, current: set<Id>, ghost w: World, ghost order: seq<Id>)
      requires Abs() == w.PublishAll(DespawnEvents(current, space, x, order))
      modifies this`log, this`channel
      ensures Abs() == w.PublishAll(DespawnEvents(current, space, x, order + [y]))
    {
      DespawnEventsMore(current, space, x, order, y);
      if y !in current {
        var ev := Event(Despawn, space, x, y, "", ORIGIN);
        Publish(ev);
        PublishMore(w, DespawnEvents(current, space, x, order), ev);
      }
    }

    method PublishDespawns(x: Id, space: string, current: set<Id>, visible: set<Id>) returns (ghost order: seq<Id>)
      modifies this`log, this`channel
      ensures Visits(order, visible) && Abs() == old(Abs()).PublishAll(DespawnEvents(current, space, x, order))
    {
      order := [];
      ghost var w := Abs();
      var rest := visible;
      ghost var done: set<Id> := {};
      while rest != {}
        invariant rest !! done && rest + done == visible && Visits(order, done)
        invariant Abs() == w.PublishAll(DespawnEvents(current, space, x, order))
      {
        var y :| y in rest;
        PublishDespawn(x, space, y, current, w, order);
        VisitsMore(order, done, y);
        order := order + [y];
        rest, done := rest - {y}, done + {y};
      }
    }

    method Look(z: ZoneId, x: Id) returns (current: set<Id>)
      requires Tracked() && z in zones && x in zones[z].entities
      ensures current == Abs().Surroundings(z, x)
    {
      var near := Aoi.InRangeOf(zones[z].grid, zones[z].entities[x].position, AOI_RADIUS);
      current := set y | y in near;
    }

    method PublishDelta(x: Id, space: string, current: set<Id>, visible: set<Id>)
      returns (ghost spawns: seq<Id>, ghost despawns: seq<Id>)
      requires Tracked()
      modifies this`log, this`channel
      ensures Visits(spawns, current) && Visits(despawns, visible)
      ensures Abs() == old(Abs()).PublishAll(SpawnEvents(old(Abs()), space, x, spawns)
                                             + DespawnEvents(current, space, x, despawns))
    {
      ghost var w := Abs();
      spawns := PublishSpawns(x, space, current);
      despawns := PublishDespawns(x, space, current, visible);
      PublishBoth(w, SpawnEvents(w, space, x, spawns), DespawnEvents(current, space, x, despawns));
    }

    /** Publishes the difference to what `x` saw before and remembers what it sees now. */
    method Emit(x: Id, space: string, current: set<Id>, visible: set<Id>, p: Vec)
      returns (ghost spawns: seq<Id>, ghost despawns: seq<Id>)
      requires Tracked()
      modifies this`log, this`channel, this`entityAOI
      ensures Visits(spawns, current) && Visits(despawns, visible)
      ensures var w := old(Abs());
              Abs() == w.PublishAll(SpawnEvents(w, space, x, spawns) + DespawnEvents(current, space, x, despawns))
                       .(entityAOI := w.entityAOI[x := AoiState(current, p)])
    {
      spawns, despawns := PublishDelta(x, space, current, visible);
      entityAOI := entityAOI[x := AoiState(current, p)];
    }

    /** One entity of the pass: what is around it, and the difference to what it saw before. */
    method ObserveEntity(z: ZoneId, x: Id) returns (ghost spawns: seq<Id>, ghost despawns: seq<Id>)
      requires Tracked() && z in zones && x in zones[z].entities
      modifies this`log, this`channel, this`entityAOI
      ensures Enabled(old(Abs()), ObserveOne(z, x, spawns, despawns))
      ensures Abs() == Observe(old(Abs()), z, x, spawns, despawns)
    {
      var current := Look(z, x);
      var e := zones[z].entities[x];
      spawns, despawns := Emit(x, e.runtimeId, current, if x in entityAOI then entityAOI[x].visible else {}, e.position);
      OrdersFit(old(Abs()), z, x, spawns, despawns);
    }

    static lemma OrdersFit(w: World, z: ZoneId, x: Id, spawns: seq<Id>, despawns: seq<Id>)
      requires Visits(spawns, w.Surroundings(z, x)) && Visits(despawns, w.Visible(x))
      ensures Enabled(w, ObserveOne(z, x, spawns, despawns))
    {
    }

    /** A pass over zone `z` that has visited `done`. */
    static ghost predicate PassSoFar(w: World, z: ZoneId, pass: seq<Op>, order: seq<Id>, done: set<Id>) {
      && Visits(order, done) && |pass| == |order| && AllEnabled(w, pass)
      && forall i :: 0 <= i < |pass| ==> pass[i].ObserveOne? && pass[i].z == z && pass[i].x == order[i]
    }

    static lemma MorePass(w: World, z: ZoneId, pass: seq<Op>, order: seq<Id>, done: set<Id>, op: Op)
      requires PassSoFar(w, z, pass, order, done) && Enabled(Run(w, pass), op)
      requires op.ObserveOne? && op.z == z && op.x !in done
      ensures PassSoFar(w, z, pass + [op], order + [op.x], done + {op.x})
      ensures Run(w, pass + [op]) == Step(Run(w, pass), op)
    {
      VisitsMore(order, done, op.x);
      RunMore(w, pass, op);
      EnabledMore(w, pass, op);
    }

    method ObserveNext(z: ZoneId, x: Id, ghost w: World, ghost pass: seq<Op>, ghost order: seq<Id>, ghost done: set<Id>)
      returns (ghost pass': seq<Op>, ghost order': seq<Id>)
      requires Tracked() && z in zones && x in zones[z].entities && x !in done
      requires PassSoFar(w, z, pass, order, done) && Abs() == Run(w, pass)
      modifies this`log, this`channel, this`entityAOI
      ensures PassSoFar(w, z, pass', order', done + {x}) && Abs() == Run(w, pass')
    {
      ghost var spawns, despawns := ObserveEntity(z, x);
      ghost var op := ObserveOne(z, x, spawns, despawns);
      MorePass(w, z, pass, order, done, op);
      pass', order' := pass + [op], order + [x];
    }

    method UpdateVisibility(z: ZoneId) returns (ghost pass: seq<Op>, ghost order: seq<Id>)
      requires Tracked()
      modifies this`log, this`channel, this`entityAOI
      ensures AllEnabled(old(Abs()), pass) && Abs() == Run(old(Abs()), pass)
      ensures if z in zones then IsPass(old(Abs()), z, pass, order) else pass == []
    {
      pass, order := [], [];
      if z !in zones { return; }
      ghost var w := Abs();
      var rest := zones[z].entities.Keys;
      ghost var done: set<Id> := {};
      while rest != {}
        invariant rest !! done && rest + done == zones[z].entities.Keys
        invariant PassSoFar(w, z, pass, order, done) && Abs() == Run(w, pass)
      {
        var x :| x in rest;
        pass, order := ObserveNext(z, x, w, pass, order, done);
        rest, done := rest - {x}, done + {x};
      }
    }

    // ---------- releasing a zone ----------

    /** The entities of zone `z` leave the server's own maps, one by one. */
    method ForgetZone(z: ZoneId)
      requires Tracked()
      modifies this`entities, this`entityAOI, this`entityZone
      ensures Tracked()
      ensures Abs() == Without(old(Abs()), set x | x in old(entityZone) && old(entityZone)[x] == z)
    {
      ghost var w := Abs();
      var all, rest := entityZone, entityZone.Keys;
      ghost var gone: set<Id> := {};
      while rest != {}
        invariant Tracked() && rest <= all.Keys
        invariant gone == set x | x in all && x !in rest && all[x] == z
        invariant Abs() == Without(w, gone)
      {
        var x :| x in rest;
        if all[x] == z {
          Forget(x);
          WithoutMore(w, gone, x);
          gone := gone + {x};
        }
        rest := rest - {x};
      }
      assert gone == set x | x in all && all[x] == z;
    }

    static ghost function Without(w: World, gone: set<Id>): World {
      w.(entities := w.entities - gone, entityAOI := w.entityAOI - gone, entityZone := w.entityZone - gone)
    }

    static lemma WithoutMore(w: World, gone: set<Id>, x: Id)
      ensures Without(w, gone + {x}) == Without(Without(w, gone), {x})
    {
      assert w.entities - (gone + {x}) == w.entities - gone - {x};
      assert w.entityAOI - (gone + {x}) == w.entityAOI - gone - {x};
      assert w.entityZone - (gone + {x}) == w.entityZone - gone - {x};
    }

    method DropLocalGhosts(z: ZoneId)
      modifies this`ghosts
      ensures Abs() == old(Abs()).(ghosts := map x | x in old(ghosts) && old(ghosts)[x].originZone != z :: old(ghosts)[x])
    {
      ghost var all := ghosts;
      var rest := ghosts.Keys;
      while rest != {}
        invariant rest <= ghosts.Keys
        invariant ghosts == map x | x in all && (x in rest || all[x].originZone != z) :: all[x]
      {
        var x :| x in rest;
        if ghosts[x].originZone == z { ghosts := ghosts - {x}; }
        rest := rest - {x};
      }
    }

    /** False, and nothing changes, if the server does not have the zone. */
    method ReleaseZone(z: ZoneId) returns (ok: bool)
      requires Tracked()
      modifies this`zones, this`entities, this`entityAOI, this`entityZone, this`ghosts, this`aoiIndex, this`ghostStore
      ensures Tracked() && ok == (z in old(zones)) && Abs() == Worlds.ReleaseZone(old(Abs()), z)
    {
      ok := z in zones;
      if !ok { return; }
      ForgetZone(z);
      DropLocalGhosts(z);
      zones, aoiIndex, ghostStore := zones - {z}, aoiIndex - {z}, ghostStore - {z};
    }

    // ---------- reconciling with a neighbour ----------

    method ReportNeighbor(z: ZoneId, n: ZoneId, x: Id, p: Vec, now: int)
      requires Tracked()
      modifies this`zones, this`aoiIndex, this`ghostStore
      ensures Tracked() && ghostStore.Keys == old(ghostStore).Keys && Abs() == ReportGhost(old(Abs()), z, n, x, p, now)
    {
      if z !in aoiIndex || z !in ghostStore || z !in zones || zones[z].zone.None? { return; }
      var gid := RemoteGhost(x);
      SetIndexGrid(z, if gid in ghostStore[z] then IndexGrid(z).Move(gid, p) else IndexGrid(z).Enter(gid, p));
      ghostStore := ghostStore[z := ghostStore[z][gid := GhostEntry(true, x, n, p, now + GHOST_TTL * 6)]];
    }

    method TimeoutNeighbor(z: ZoneId, gid: Id, now: int)
      requires Tracked()
      modifies this`zones, this`aoiIndex, this`ghostStore
      ensures Tracked() && Abs() == TimeoutGhost(old(Abs()), z, gid, now)
    {
      if z !in aoiIndex || z !in ghostStore || z !in zones || zones[z].zone.None? || gid !in ghostStore[z]
         || !ghostStore[z][gid].remote || now <= ghostStore[z][gid].expiresAt { return; }
      SetIndexGrid(z, IndexGrid(z).Leave(gid));
      ghostStore := ghostStore[z := ghostStore[z] - {gid}];
    }

    method ReportAll(z: ZoneId, n: ZoneId, reports: seq<Ghosts.Report>, now: int)
      requires Tracked()
      modifies this`zones, this`aoiIndex, this`ghostStore
      ensures Tracked() && ghostStore.Keys == old(ghostStore).Keys
      ensures Abs() == Ghosts.Reported(old(Abs()), z, n, reports, now)
    {
      ghost var w := Abs();
      for i := 0 to |reports|
        invariant Tracked() && ghostStore.Keys == old(ghostStore).Keys
        invariant Abs() == Ghosts.Reported(w, z, n, reports[..i], now)
      {
        assert reports[..i + 1][..i] == reports[..i];
        ReportNeighbor(z, n, reports[i].id, reports[i].p, now);
      }
      assert reports[..|reports|] == reports;
    }

    /** ReconcileNeighborGhosts with the neighbour's answer `reports`. */
    method ReconcileNeighborGhosts(z: ZoneId, n: ZoneId, reports: seq<Ghosts.Report>, now: int) returns (ghost order: seq<Id>)
      requires Tracked()
      modifies this`zones, this`aoiIndex, this`ghostStore
      ensures Tracked()
      ensures if Ghosts.Reconcilable(old(Abs()), z) then Ghosts.Reconciles(old(Abs()), z, n, reports, order, now, Abs())
              else Abs() == old(Abs())
    {
      order := [];
      if z !in aoiIndex || z !in ghostStore || z !in zones || zones[z].zone.None? { return; }
      ReportAll(z, n, reports, now);
      order := TimeoutAll(z, Ghosts.Seen(reports), now);
    }

    method TimeoutAll(z: ZoneId, seen: set<Id>, now: int) returns (ghost order: seq<Id>)
      requires Tracked()
      modifies this`zones, this`aoiIndex, this`ghostStore
      ensures Tracked() && Visits(order, Ghosts.Store(old(Abs()), z).Keys)
      ensures Abs() == Ghosts.TimedOut(old(Abs()), z, seen, order, now)
    {
      order := [];
      ghost var w := Abs();
      var rest := if z in ghostStore then ghostStore[z].Keys else {};
      ghost var done: set<Id> := {};
      while rest != {}
        invariant Tracked() && rest !! done && rest + done == Ghosts.Store(w, z).Keys && Visits(order, done)
        invariant Abs() == Ghosts.TimedOut(w, z, seen, order, now)
      {
        var gid :| gid in rest;
        order := TimeoutNext(w, z, seen, order, gid, now);
        rest, done := rest - {gid}, done + {gid};
      }
    }

    method TimeoutNext(ghost w: World, z: ZoneId, seen: set<Id>, ghost order: seq<Id>, gid: Id, now: int) returns (ghost order': seq<Id>)
      requires Tracked() && Abs() == Ghosts.TimedOut(w, z, seen, order, now)
      modifies this`zones, this`aoiIndex, this`ghostStore
      ensures Tracked() && order' == order + [gid] && Abs() == Ghosts.TimedOut(w, z, seen, order', now)
    {
      order' := order + [gid];
      assert order'[..|order|] == order;
      if gid !in seen { TimeoutNeighbor(z, gid, now); }
    }

    // ---------- handing a zone over ----------

    /** The live entities of the zone and its grid's positions; None if the zone is not indexed. */
    method SnapshotZone(z: ZoneId) returns (snap: Option<(seq<Handover.Snap>, GridHistory.Saved)>)
      requires Tracked() && entities.Keys == entityZone.Keys && forall x :: x in entities ==> entities[x].id == x
      ensures snap.None? <==> z !in aoiIndex
      ensures snap.Some? ==> Handover.IsSnapshot(Abs(), z, snap.value.0)
                             && snap.value.1 == GridHistory.Save(Abs().IndexGrid(z))
      ensures snap.Some? ==> forall i :: 0 <= i < |snap.value.0| ==> var s := snap.value.0[i];
                               s.id in entities && entityZone[s.id] == z && s.typ == entities[s.id].typ && s.position == entities[s.id].position
    {
      if z !in aoiIndex { return None; }
      var snaps: seq<Handover.Snap> := [];
      var rest := entityZone.Keys;
      while rest != {}
        invariant rest <= entityZone.Keys
        invariant forall i, j :: 0 <= i < j < |snaps| ==> snaps[i].id != snaps[j].id
        invariant forall i :: 0 <= i < |snaps| ==>
                    snaps[i].id in entities && snaps[i].id !in rest && entityZone[snaps[i].id] == z
                    && snaps[i] == Handover.SnapOf(Abs(), snaps[i].id)
        invariant forall x :: x in entityZone && x !in rest && entityZone[x] == z ==> x in Handover.SnapIds(snaps)
      {
        var x :| x in rest;
        if entityZone[x] == z {
          var e := entities[x];
          assert Handover.SnapIds(snaps + [Handover.Snap(e.id, e.typ, e.position)]) == Handover.SnapIds(snaps) + [e.id];
          snaps := snaps + [Handover.Snap(e.id, e.typ, e.position)];
        }
        rest := rest - {x};
      }
      snap := Some((snaps, GridHistory.Save(IndexGrid(z))));
    }

    /** A new object for a travelled entity, added to zone `z`. */
    method MigrateEntityIn(s: Handover.Snap, z: ZoneId) returns (e: Entity)
      requires Tracked()
      modifies this`zones, this`entities, this`entityZone, this`entityAOI, this`joined, this`known
      ensures fresh(e) && Tracked() && known == old(known) + {e}
      ensures Abs() == Worlds.AddEntity(old(Abs()), e, Handover.Arrival(s, z))
    {
      e := NewArrival(s, z);
      AddEntity(e);
    }

    static method NewArrival(s: Handover.Snap, z: ZoneId) returns (e: Entity)
      ensures fresh(e) && e.Val() == Handover.Arrival(s, z)
    {
      e := new Entity(s.id, s.typ, "", false);
      e.zoneId, e.position := z, s.position;
    }

    method LoadZoneSnapshot(z: ZoneId, saved: Option<GridHistory.Saved>, snaps: seq<Handover.Snap>)
      returns (ghost order: seq<Id>, ghost objs: seq<Entity>)
      requires Tracked()
      modifies this`zones, this`entities, this`entityZone, this`entityAOI, this`joined, this`known
      modifies this`aoiIndex, this`ghostStore
      ensures Tracked() && |objs| == |snaps| && NewObjects(objs, old(known), known)
      ensures saved.Some? ==> Visits(order, saved.value.positions.Keys)
      ensures Abs() == Handover.Loaded(LoadIndex(old(Abs()), z, saved, order), z, snaps, objs)
    {
      order := LoadGrid(z, saved);
      objs := MigrateAll(z, snaps);
    }

    /** `objs` are distinct objects the server did not know before and knows now. */
    /** A handover in four calls: a snapshot here, an assignment and a load on `target`, a release here.
        Fails, and changes nothing, if the zone is not indexed. */
    method HandOver(target: Game, zone: Zone)
      returns (ok: bool, ghost saved: Option<GridHistory.Saved>, ghost order: seq<Id>, ghost snaps: seq<Handover.Snap>, ghost objs: seq<Entity>)
      requires this != target && Inv(Abs()) && Inv(target.Abs()) && zone.id != "" && zone.id !in target.zones
      requires forall x :: Handover.LivesIn(Abs(), x, zone.id) ==> x !in target.entities
      modifies this, target
      ensures ok == (zone.id in old(aoiIndex)) && (!ok ==> Abs() == old(Abs()) && target.Abs() == old(target.Abs()))
      ensures ok ==> Handover.HandedOver(old(Abs()), old(target.Abs()), zone, saved, order, snaps, objs, Abs(), target.Abs())
    {
      saved, order, snaps, objs := None, [], [], [];
      SnapshotReady();
      target.InOrder();
      var snap := SnapshotZone(zone.id);
      ok := snap.Some?;
      if ok {
        saved, snaps := Some(snap.value.1), snap.value.0;
        order, objs := SendZone(target, zone, snap.value.1, snap.value.0);
        Handover.SnapshotMayLoad(old(Abs()), old(target.Abs()), zone, snaps, objs);
      }
    }

    lemma SnapshotReady()
      requires Inv(Abs())
      ensures Tracked() && entities.Keys == entityZone.Keys && forall x :: x in entities ==> entities[x].id == x
    {
      InOrder();
      forall x | x in entities ensures entities[x].id == x { assert LiveOk(Abs(), x); }
    }

    /** The snapshot goes to `target`, and the zone is released here. */
    method SendZone(target: Game, zone: Zone, saved: GridHistory.Saved, snaps: seq<Handover.Snap>)
      returns (ghost order: seq<Id>, ghost objs: seq<Entity>)
      requires this != target && Tracked() && target.Tracked() && zone.id !in target.zones
      modifies this, target
      ensures |objs| == |snaps| && NewObjects(objs, old(target.known), target.known) && Abs() == Worlds.ReleaseZone(old(Abs()), zone.id)
      ensures target.Abs() == Handover.Loaded(LoadIndex(Worlds.AssignZone(old(target.Abs()), zone), zone.id, Some(saved), order), zone.id, snaps, objs)
    {
      order, objs := target.TakeOver(zone, saved, snaps);
      var _ := ReleaseZone(zone.id);
    }

    /** The part of the target: the zone is assigned, and the snapshot loaded. */
    method TakeOver(zone: Zone, saved: GridHistory.Saved, snaps: seq<Handover.Snap>) returns (ghost order: seq<Id>, ghost objs: seq<Entity>)
      requires Tracked() && zone.id !in zones
      modifies this
      ensures Tracked() && |objs| == |snaps| && NewObjects(objs, old(known), known)
      ensures Abs() == Handover.Loaded(LoadIndex(Worlds.AssignZone(old(Abs()), zone), zone.id, Some(saved), order), zone.id, snaps, objs)
    {
      var _ := AssignZone(zone);
      order, objs := LoadZoneSnapshot(zone.id, Some(saved), snaps);
    }

    static ghost predicate NewObjects(objs: seq<Entity>, was: set<Entity>, now: set<Entity>) {
      && (forall i :: 0 <= i < |objs| ==> objs[i] !in was && objs[i] in now)
      && (forall i, j :: 0 <= i < j < |objs| ==> objs[i] != objs[j])
    }

    static lemma NewObjectsMore(objs: seq<Entity>, e: Entity, was: set<Entity>, now: set<Entity>)
      requires NewObjects(objs, was, now) && e !in now && e !in was
      ensures NewObjects(objs + [e], was, now + {e})
    {
    }

    method MigrateNext(s: Handover.Snap, z: ZoneId, ghost w: World, ghost part: seq<Handover.Snap>, ghost objs: seq<Entity>) returns (e: Entity)
      requires Tracked() && |objs| == |part| && Abs() == Handover.Loaded(w, z, part, objs)
      modifies this`zones, this`entities, this`entityZone, this`entityAOI, this`joined, this`known
      ensures Tracked() && e !in old(known) && known == old(known) + {e}
      ensures Abs() == Handover.Loaded(w, z, part + [s], objs + [e])
    {
      e := MigrateEntityIn(s, z);
      Handover.LoadedMore(w, z, part, objs, s, e);
    }

    method MigrateAll(z: ZoneId, snaps: seq<Handover.Snap>) returns (ghost objs: seq<Entity>)
      requires Tracked()
      modifies this`zones, this`entities, this`entityZone, this`entityAOI, this`joined, this`known
      ensures Tracked() && |objs| == |snaps| && NewObjects(objs, old(known), known) && old(known) <= known
      ensures Abs() == Handover.Loaded(old(Abs()), z, snaps, objs)
    {
      objs := [];
      ghost var w := Abs();
      for i := 0 to |snaps|
        invariant Tracked() && |objs| == i && NewObjects(objs, old(known), known) && old(known) <= known
        invariant Abs() == Handover.Loaded(w, z, snaps[..i], objs)
      {
        TakeMore(snaps, i);
        ghost var now := known;
        var e := MigrateNext(snaps[i], z, w, snaps[..i], objs);
        NewObjectsMore(objs, e, old(known), now);
        objs := objs + [e];
      }
      assert snaps[..|snaps|] == snaps;
    }

    /** The index entry, with a grid of its own, for a zone that has none. */
    method LoadGrid(z: ZoneId, saved: Option<GridHistory.Saved>) returns (ghost order: seq<Id>)
      requires Tracked()
      modifies this`aoiIndex, this`ghostStore
      ensures saved.Some? ==> Visits(order, saved.value.positions.Keys)
      ensures Abs() == LoadIndex(old(Abs()), z, saved, order)
    {
      var a, o := Aoi.AOI.Deserialize(CELL_SIZE, AOI_RADIUS, saved);
      order := o;
      if z !in aoiIndex {
        aoiIndex, ghostStore := aoiIndex[z := Detached(a.State())], ghostStore[z := map[]];
      }
    }

    // ---------- queries ----------

    /** queryLocal: the live entities the indexed grid reports around a grid coordinate, by id. */
    method QueryLocal(z: ZoneId, gridX: int, gridY: int, radius: real) returns (snaps: seq<Handover.Snap>)
      requires Tracked() && forall x :: x in entities ==> entities[x].id == x
      ensures z !in aoiIndex ==> snaps == []
      ensures StrictlySorted(Handover.SnapIds(snaps))
      ensures z in aoiIndex ==> forall x :: x in Handover.SnapIds(snaps) <==>
                x in entities && x in Abs().IndexGrid(z).InRange(Vec(gridX as real * 100.0, 0.0, gridY as real * 100.0), radius)
      ensures forall i :: 0 <= i < |snaps| ==> var s := snaps[i];
                s.id in entities && s.typ == entities[s.id].typ && s.position == entities[s.id].position
    {
      snaps := [];
      if z !in aoiIndex { return; }
      var ids := Aoi.InRangeOf(IndexGrid(z), Corner(gridX, gridY), radius);
      for i := 0 to |ids|
        invariant Listing(ids[..i], entities.Keys, snaps)
        invariant forall k :: 0 <= k < |snaps| ==> snaps[k].id in entities && snaps[k] == Handover.SnapOf(Abs(), snaps[k].id)
      {
        if ids[i] in entities {
          var e := entities[ids[i]];
          ListingMore(ids, i, entities.Keys, snaps, Handover.Snap(e.id, e.typ, e.position));
          snaps := snaps + [Handover.Snap(e.id, e.typ, e.position)];
        } else {
          assert ids[..i + 1] == ids[..i] + [ids[i]];
        }
      }
      assert ids[..|ids|] == ids;
    }

    /** The snapshots of the live ids among `ids`, in order. */
    static ghost predicate Listing(ids: seq<Id>, live: set<Id>, snaps: seq<Handover.Snap>) {
      StrictlySorted(Handover.SnapIds(snaps)) && forall x :: x in Handover.SnapIds(snaps) <==> x in ids && x in live
    }

    static lemma ListingMore(ids: seq<Id>, i: nat, live: set<Id>, snaps: seq<Handover.Snap>, s: Handover.Snap)
      requires i < |ids| && StrictlySorted(ids) && Listing(ids[..i], live, snaps) && s.id == ids[i] && s.id in live
      ensures Listing(ids[..i + 1], live, snaps + [s])
    {
      var was := Handover.SnapIds(snaps);
      assert ids[..i + 1] == ids[..i] + [ids[i]];
      assert forall x :: x in ids[..i] ==> Leq(x, ids[i]) && x != ids[i];
      assert forall k :: 0 <= k < |was| ==> was[k] in was;
      assert Handover.SnapIds(snaps + [s]) == was + [s.id];
    }

    static function Corner(gridX: int, gridY: int): Vec {
      Vec(gridX as real * CELL_SIZE, 0.0, gridY as real * CELL_SIZE)
    }

    /** Zone `z` lists `x`, and a grid query for the Space should report that entry. */
    ghost predicate NearListing(z: ZoneId, x: Id, space: string, gridX: int, gridY: int, radius: real)
      reads this, known
    {
      z in zones && x in zones[z].entities && Spaces.NearZone(Abs(), z, space, gridX, gridY, radius, zones[z].entities[x])
    }

    /** One zone's part of the query; `ids` are the entries reported, each once. */
    method NearInZone(z: ZoneId, space: string, gridX: int, gridY: int, radius: real) returns (result: seq<Entity>, ghost ids: seq<Id>)
      requires Tracked() && z in zones
      ensures |ids| == |result| && forall i :: 0 <= i < |ids| ==> ids[i] in zones[z].entities && result[i] == zones[z].entities[ids[i]]
      ensures Visits(ids, set x | x in zones[z].entities && NearListing(z, x, space, gridX, gridY, radius))
    {
      result, ids := [], [];
      if zones[z].zone.None? || zones[z].zone.value.runtimeId != space { return; }
      var zone := zones[z].zone.value;
      if zone.gridX != gridX || zone.gridY != gridY { return; }
      var center := Spaces.ZoneCenter(zone);
      var rest := zones[z].entities.Keys;
      while rest != {}
        invariant rest <= zones[z].entities.Keys
        invariant |ids| == |result| && forall i :: 0 <= i < |ids| ==> ids[i] in zones[z].entities && result[i] == zones[z].entities[ids[i]]
        invariant forall x :: x in ids <==> x in zones[z].entities && x !in rest && NearListing(z, x, space, gridX, gridY, radius)
        invariant forall i, j :: 0 <= i < j < |ids| ==> ids[i] != ids[j]
      {
        var x :| x in rest;
        var e := zones[z].entities[x];
        if DistSq(e.position, center) <= radius * radius { result, ids := result + [e], ids + [x]; }
        rest := rest - {x};
      }
    }

    static ghost function Tagged(z: ZoneId, ids: seq<Id>): seq<(ZoneId, Id)> {
      seq(|ids|, i requires 0 <= i < |ids| => (z, ids[i]))
    }

    /** `from` names distinct entries of the zones, and `result` is what they hold. */
    ghost predicate Reports(from: seq<(ZoneId, Id)>, result: seq<Entity>)
      reads this
    {
      && |from| == |result|
      && (forall i :: 0 <= i < |from| ==> from[i].0 in zones && from[i].1 in zones[from[i].0].entities && result[i] == zones[from[i].0].entities[from[i].1])
      && forall i, j :: 0 <= i < j < |from| ==> from[i] != from[j]
    }

    lemma ReportsMore(from: seq<(ZoneId, Id)>, result: seq<Entity>, z: ZoneId, ids: seq<Id>, more: seq<Entity>)
      requires Reports(from, result) && z in zones && |ids| == |more|
      requires forall i :: 0 <= i < |ids| ==> ids[i] in zones[z].entities && more[i] == zones[z].entities[ids[i]]
      requires (forall i, j :: 0 <= i < j < |ids| ==> ids[i] != ids[j]) && forall p :: p in from ==> p.0 != z
      ensures Reports(from + Tagged(z, ids), result + more)
      ensures forall y, x :: (y, x) in from + Tagged(z, ids) <==> (y, x) in from || (y == z && x in ids)
    {
      forall y, x ensures (y, x) in Tagged(z, ids) <==> y == z && x in ids {
        if y == z && x in ids {
          var i :| 0 <= i < |ids| && ids[i] == x;
          assert Tagged(z, ids)[i] == (y, x);
        }
      }
    }

    /** In the terms of the server's state: an object is reported exactly if some zone lists it near. */
    lemma NearGridIs(from: seq<(ZoneId, Id)>, result: seq<Entity>, space: string, gridX: int, gridY: int, radius: real, e: Entity)
      requires Reports(from, result) && forall z, x :: (z, x) in from <==> NearListing(z, x, space, gridX, gridY, radius)
      ensures e in result <==> Spaces.NearGrid(Abs(), space, gridX, gridY, radius, e)
    {
      if e in result {
        var i :| 0 <= i < |result| && result[i] == e;
        assert (from[i].0, from[i].1) in from;
      }
      if z, x :| NearListing(z, x, space, gridX, gridY, radius) && zones[z].entities[x] == e {
        var i :| 0 <= i < |from| && from[i] == (z, x);
        assert result[i] == e;
      }
    }

    /** Every entry the query is for is reported once, as the object the zone lists. */
    method EntitiesNearGrid(space: string, gridX: int, gridY: int, radius: real) returns (result: seq<Entity>, ghost from: seq<(ZoneId, Id)>)
      requires Tracked()
      ensures Reports(from, result)
      ensures forall z, x :: (z, x) in from <==> NearListing(z, x, space, gridX, gridY, radius)
      ensures forall e :: e in result <==> Spaces.NearGrid(Abs(), space, gridX, gridY, radius, e)
    {
      result, from := [], [];
      var rest := zones.Keys;
      while rest != {}
        invariant rest <= zones.Keys && Reports(from, result)
        invariant forall z, x :: (z, x) in from <==> z !in rest && NearListing(z, x, space, gridX, gridY, radius)
      {
        var z :| z in rest;
        var more, ids := NearInZone(z, space, gridX, gridY, radius);
        assert forall p :: p in from ==> (p.0, p.1) in from;
        ReportsMore(from, result, z, ids, more);
        result, from := result + more, from + Tagged(z, ids);
        rest := rest - {z};
      }
      forall e ensures e in result <==> Spaces.NearGrid(Abs(), space, gridX, gridY, radius, e) {
        NearGridIs(from, result, space, gridX, gridY, radius, e);
      }
    }

    // ---------- a tick ----------

    /** `op` is the step of `cmd`; what the added object never changes is in it. */
    static ghost predicate Does(cmd: Command, op: Op) {
      match cmd
      case AddCommand(e) => op.Add? && op.e == e && op.v.id == e.id && op.v.typ == e.typ && op.v.autonomous == e.autonomous
      case RemoveCommand(x) => op == Remove(x)
    }

    static function Touched(cmd: Command): set<Entity> {
      if cmd.AddCommand? then {cmd.e} else {}
    }

    method ApplyCmd(cmd: Command) returns (ghost op: Op)
      requires Tracked()
      modifies this`zones, this`entities, this`entityZone, this`entityAOI, this`joined, this`known
      modifies Touched(cmd)
      ensures Tracked() && Does(cmd, op) && Abs() == Step(old(Abs()), op)
      ensures cmd.AddCommand? ==> op.v == old(cmd.e.Val())
      ensures known == old(known) + Touched(cmd)
    {
      match cmd
      case AddCommand(e) =>
        op := Add(e, e.Val());
        AddEntity(e);
      case RemoveCommand(x) =>
        op := Remove(x);
        RemoveEntity(x);
    }

    static function Adds(cmds: seq<Command>): set<Entity> {
      set c | c in cmds && c.AddCommand? :: c.e
    }

    /** What the objects to be added hold. */
    static ghost function Vals(cmds: seq<Command>): map<Entity, EntityVal>
      reads Adds(cmds)
    {
      map e | e in Adds(cmds) :: e.Val()
    }

    /** Takes the oldest command off the queue and runs it. */
    method ApplyNext(ghost w: World, ghost ops: seq<Op>) returns (ghost op: Op)
      requires Tracked() && cmds != [] && Abs() == Run(w, ops)
      modifies this`cmds, this`zones, this`entities, this`entityZone, this`entityAOI, this`joined, this`known
      modifies if cmds == [] then {} else Touched(cmds[0])
      ensures Tracked() && known == old(known) + Touched(old(cmds)[0]) && cmds == old(cmds)[1..]
      ensures Does(old(cmds)[0], op) && Abs() == Run(w, ops + [op])
      ensures old(cmds)[0].AddCommand? ==> op.v == old(cmds[0].e.Val())
    {
      var cmd := ReceiveCmd();
      op := ApplyCmd(cmd);
      RunMore(w, ops, op);
    }

    method ReceiveCmd() returns (cmd: Command)
      requires Tracked() && cmds != []
      modifies this`cmds
      ensures Tracked() && Abs() == old(Abs()) && cmd == old(cmds)[0] && cmds == old(cmds)[1..]
    {
      cmd, cmds := cmds[0], cmds[1..];
    }

    /** `ops` are the steps of the oldest commands: the first time an object is queued it is added with
        the value it held, `vals`, when the queue was taken up. */
    static ghost predicate DoesAll(cmds: seq<Command>, vals: map<Entity, EntityVal>, ops: seq<Op>) {
      && |ops| <= |cmds| && (forall i :: 0 <= i < |ops| ==> Does(cmds[i], ops[i]))
      && forall i :: 0 <= i < |ops| && cmds[i].AddCommand? && cmds[i].e !in Adds(cmds[..i]) && cmds[i].e in vals ==>
                       ops[i].v == vals[cmds[i].e]
    }

    static lemma AddsMore(cmds: seq<Command>, i: nat)
      requires i < |cmds|
      ensures Adds(cmds[..i + 1]) == Adds(cmds[..i]) + Touched(cmds[i]) && Touched(cmds[i]) <= Adds(cmds)
      ensures cmds[i..][0] == cmds[i] && cmds[i..][1..] == cmds[i + 1..]
    {
      TakeMore(cmds, i);
      assert cmds[i] in cmds;
      assert forall c :: c in cmds[..i + 1] <==> c in cmds[..i] || c == cmds[i];
    }

    static lemma DoesMore(cmds: seq<Command>, vals: map<Entity, EntityVal>, ops: seq<Op>, op: Op)
      requires DoesAll(cmds, vals, ops) && |ops| < |cmds| && Does(cmds[|ops|], op)
      requires var c := cmds[|ops|]; c.AddCommand? && c.e !in Adds(cmds[..|ops|]) && c.e in vals ==> op.v == vals[c.e]
      ensures DoesAll(cmds, vals, ops + [op])
    {
    }

    /** The objects no command has touched yet still hold what they held. */
    static ghost predicate Untouched(all: set<Entity>, done: set<Entity>, vals: map<Entity, EntityVal>)
      reads all
    {
      forall e :: e in all && e !in done && e in vals ==> e.Val() == vals[e]
    }

    /** One round of the command loop. */
    method ApplyRound(ghost w: World, ghost ops: seq<Op>, ghost all: set<Entity>, ghost done: set<Entity>, ghost vals: map<Entity, EntityVal>)
      returns (ghost op: Op)
      requires Tracked() && cmds != [] && Abs() == Run(w, ops) && Touched(cmds[0]) <= all && Untouched(all, done, vals)
      modifies this`cmds, this`zones, this`entities, this`entityZone, this`entityAOI, this`joined, this`known
      modifies if cmds == [] then {} else Touched(cmds[0])
      ensures Tracked() && known == old(known) + Touched(old(cmds)[0]) && cmds == old(cmds)[1..]
      ensures Does(old(cmds)[0], op) && Abs() == Run(w, ops + [op])
      ensures var c := old(cmds)[0]; c.AddCommand? && c.e !in done && c.e in vals ==> op.v == vals[c.e]
      ensures Untouched(all, done + Touched(old(cmds)[0]), vals)
    {
      op := ApplyNext(w, ops);
    }

    /** The first `|ops|` of the commands `all` have been run. */
    ghost predicate Underway(w: World, all: seq<Command>, vals: map<Entity, EntityVal>, ops: seq<Op>)
      reads this, known, Adds(all)
    {
      && Tracked() && Abs() == Run(w, ops) && |ops| <= |all| && cmds == all[|ops|..]
      && DoesAll(all, vals, ops) && Untouched(Adds(all), Adds(all[..|ops|]), vals)
    }

    method ApplyAnother(ghost w: World, ghost all: seq<Command>, ghost vals: map<Entity, EntityVal>, ghost ops: seq<Op>) returns (ghost op: Op)
      requires Underway(w, all, vals, ops) && |ops| < |all|
      modifies this`cmds, this`zones, this`entities, this`entityZone, this`entityAOI, this`joined, this`known, Adds(all)
      ensures Underway(w, all, vals, ops + [op]) && old(known) <= known <= old(known) + Adds(all)
    {
      AddsMore(all, |ops|);
      op := ApplyRound(w, ops, Adds(all), Adds(all[..|ops|]), vals);
      DoesMore(all, vals, ops, op);
    }

    /** Runs the queued commands, at most CMD_BUFFER of them. */
    method ApplyCmds() returns (ghost ops: seq<Op>)
      requires Tracked()
      modifies this`cmds, this`zones, this`entities, this`entityZone, this`entityAOI, this`joined, this`known, Adds(cmds)
      ensures Tracked() && old(known) <= known <= old(known) + Adds(old(cmds))
      ensures |ops| == Min(|old(cmds)|, 256) && cmds == old(cmds)[|ops|..]
      ensures DoesAll(old(cmds), old(Vals(cmds)), ops) && Abs() == Run(old(Abs()), ops)
    {
      ops := [];
      ghost var w, all, vals := Abs(), cmds, Vals(cmds);
      var n := Min(|cmds|, CMD_BUFFER);
      for i := 0 to n
        invariant |ops| == i && Underway(w, all, vals, ops) && old(known) <= known <= old(known) + Adds(all)
      {
        ghost var op := ApplyAnother(w, all, vals, ops);
        ops := ops + [op];
      }
    }

    method ReceivePacket() returns (pkt: Packet)
      requires Tracked() && inbox != []
      modifies this`inbox
      ensures Tracked() && Abs() == old(Abs()) && pkt == old(inbox)[0] && inbox == old(inbox)[1..]
    {
      pkt, inbox := inbox[0], inbox[1..];
    }

    method DispatchNext(ghost w: World, ghost ops: seq<Op>) returns (ghost ops': seq<Op>)
      requires Tracked() && inbox != [] && Abs() == Run(w, ops)
      modifies this`inbox, this`zones, this`log, this`channel, known
      ensures Tracked() && inbox == old(inbox)[1..] && Abs() == Run(w, ops')
      ensures var pkt := old(inbox)[0];
              ops' == ops + if pkt.position.Some? then [MoveTo(pkt.client, pkt.position.value)] else []
    {
      var pkt := ReceivePacket();
      ops' := ops;
      if pkt.position.Some? { ops' := DispatchPosition(pkt.client, pkt.position.value, w, ops); }
    }

    method DispatchPosition(x: Id, p: Vec, ghost w: World, ghost ops: seq<Op>) returns (ghost ops': seq<Op>)
      requires Tracked() && Abs() == Run(w, ops)
      modifies this`zones, this`log, this`channel, known
      ensures Tracked() && Abs() == Run(w, ops') && ops' == ops + [MoveTo(x, p)]
    {
      MoveEntity(x, p);
      RunMore(w, ops, MoveTo(x, p));
      ops' := ops + [MoveTo(x, p)];
    }

    static function Dispatches(packets: seq<Packet>): seq<Op> {
      if packets == [] then []
      else
        var pkt := packets[|packets| - 1];
        Dispatches(packets[..|packets| - 1])
        + if pkt.position.Some? then [MoveTo(pkt.client, pkt.position.value)] else []
    }

    static lemma DispatchesMore(packets: seq<Packet>, i: nat)
      requires i < |packets|
      ensures var pkt := packets[i];
              Dispatches(packets[..i + 1])
              == Dispatches(packets[..i]) + if pkt.position.Some? then [MoveTo(pkt.client, pkt.position.value)] else []
      ensures packets[i..][0] == packets[i] && packets[i..][1..] == packets[i + 1..]
    {
      assert packets[..i + 1][..i] == packets[..i];
    }

    /** Handles the waiting packets, at most MAX_PACKETS of them; the rest stays for the next tick. */
    method DrainInbox() returns (ghost ops: seq<Op>)
      requires Tracked()
      modifies this`inbox, this`zones, this`log, this`channel, known
      ensures Tracked() && Abs() == Run(old(Abs()), ops)
      ensures var n := Min(|old(inbox)|, 1024); inbox == old(inbox)[n..] && ops == Dispatches(old(inbox)[..n])
      ensures forall op :: op in ops ==> op.MoveTo?
    {
      ops := [];
      ghost var w, all := Abs(), inbox;
      var n := Min(|inbox|, MAX_PACKETS);
      for i := 0 to n
        invariant Tracked() && inbox == all[i..]
        invariant ops == Dispatches(all[..i]) && Abs() == Run(w, ops)
      {
        DispatchesMore(all, i);
        ops := DispatchNext(w, ops);
      }
      DispatchesMove(all[..n]);
    }

    /** One zone's part of the tick. */
    method TakeTurn(z: ZoneId, now: int) returns (ghost t: Ticks.Turn)
      requires Tracked() && z in zones
      modifies this`zones, this`ghosts, this`log, this`channel, this`entityAOI
      ensures Tracked() && zones.Keys == old(zones).Keys
      ensures t.z == z && Ticks.TurnOk(old(Abs()), t) && Abs() == Ticks.After(old(Abs()), t)
    {
      ghost var w := Abs();
      ghost var detects := DetectZoneBoundaries(z, now);
      Ticks.DetectsScene(w, z, detects, now, "");
      assert z in zones;
      ghost var pass, order := UpdateVisibility(z);
      t := Ticks.Turn(z, detects, now, pass, order);
    }

    /** Everything in `done` has had its turn. */
    method NextTurn(z: ZoneId, now: int, ghost w: World, ghost ts: seq<Ticks.Turn>, ghost done: set<ZoneId>)
      returns (ghost ts': seq<Ticks.Turn>)
      requires Tracked() && z in zones && Promises.TurnsSoFar(w, ts, done) && Abs() == Ticks.AfterAll(w, ts)
      modifies this`zones, this`ghosts, this`log, this`channel, this`entityAOI
      ensures Tracked() && zones.Keys == old(zones).Keys
      ensures Promises.TurnsSoFar(w, ts', done + {z}) && Abs() == Ticks.AfterAll(w, ts')
    {
      ghost var t := TakeTurn(z, now);
      Ticks.TurnsMore(w, ts, t);
      ts' := ts + [t];
    }

    /** Every zone takes its turn, in map order. */
    method TakeTurns(now: int) returns (ghost ts: seq<Ticks.Turn>)
      requires Tracked()
      modifies this`zones, this`ghosts, this`log, this`channel, this`entityAOI
      ensures Tracked() && Promises.TurnsSoFar(old(Abs()), ts, old(zones).Keys) && Abs() == Ticks.AfterAll(old(Abs()), ts)
    {
      ts := [];
      ghost var w := Abs();
      var rest := zones.Keys;
      ghost var done: set<ZoneId> := {};
      while rest != {}
        invariant Tracked() && zones.Keys == w.zones.Keys && rest + done == w.zones.Keys
        invariant Promises.TurnsSoFar(w, ts, done) && Abs() == Ticks.AfterAll(w, ts)
      {
        var z :| z in rest;
        ts := NextTurn(z, now, w, ts, done);
        rest, done := rest - {z}, done + {z};
      }
    }

    /** The first half of a tick: commands, packets, simulation. */
    method TakeInputs(moves: map<Id, Vec>) returns (ghost cmdOps: seq<Op>, ghost packetOps: seq<Op>, ghost asked: seq<Id>)
      requires Tracked()
      modifies this`cmds, this`inbox, this`zones, this`entities, this`entityZone, this`entityAOI, this`joined, this`known
      modifies this`log, this`channel, known, Adds(cmds)
      ensures Tracked() && DoesAll(old(cmds), old(Vals(cmds)), cmdOps) && |cmdOps| == Min(|old(cmds)|, CMD_BUFFER)
      ensures cmds == old(cmds)[|cmdOps|..] && inbox == old(inbox)[Min(|old(inbox)|, MAX_PACKETS)..]
      ensures packetOps == Dispatches(old(inbox)[..Min(|old(inbox)|, MAX_PACKETS)])
      ensures Promises.TookInputs(old(Abs()), cmdOps, packetOps, moves, asked, Abs())
    {
      cmdOps := ApplyCmds();
      packetOps := DrainInbox();
      asked := Simulate(moves);
    }

    /** The position of the latest packet of client `x`, or `from` if none carried one. */
    static function LastSent(packets: seq<Packet>, x: Id, from: Vec): Vec {
      if packets == [] then from
      else
        var pkt := packets[|packets| - 1];
        if pkt.client == x && pkt.position.Some? then pkt.position.value else LastSent(packets[..|packets| - 1], x, from)
    }

    static lemma {:induction false} LastDispatched(packets: seq<Packet>, x: Id, from: Vec)
      ensures Passes.LastMove(Dispatches(packets), x, from) == LastSent(packets, x, from)
      decreases |packets|
    {
      if packets != [] {
        var front, pkt := packets[..|packets| - 1], packets[|packets| - 1];
        LastDispatched(front, x, from);
        if pkt.position.Some? {
          assert Dispatches(packets)[..|Dispatches(front)|] == Dispatches(front);
        } else {
          assert Dispatches(packets) == Dispatches(front);
        }
      }
    }

    /** Handling packets leaves each live client at the position of its latest packet, and moves nobody else. */
    static lemma PacketsLand(w: World, packets: seq<Packet>, x: Id)
      requires Agree(w) && x in w.entities
      ensures Passes.Lands(w, Run(w, Dispatches(packets)), x, LastSent(packets, x, w.Obj(w.entities[x]).position))
    {
      DispatchesMove(packets);
      Passes.MovesLandLast(w, Dispatches(packets), x);
      LastDispatched(packets, x, w.Obj(w.entities[x]).position);
    }

    static lemma {:induction false} DispatchesMove(packets: seq<Packet>)
      ensures forall op :: op in Dispatches(packets) ==> op.MoveTo?
    {
      if packets != [] { DispatchesMove(packets[..|packets| - 1]); }
    }

    /** The second half: zone turns and the two sweeps. */
    method TakeTurnsAndSweep(ghostNow: int, now: int)
      returns (ghost ts: seq<Ticks.Turn>, ghost ghostOrder: seq<Id>, ghost sessionOrder: seq<Id>)
      requires Tracked()
      modifies this`zones, this`ghosts, this`log, this`channel, this`entityAOI
      modifies this`aoiIndex, this`entities, this`entityZone, this`sessions
      ensures Tracked() && Promises.TurnsSoFar(old(Abs()), ts, old(zones).Keys)
      ensures Promises.BothSwept(Ticks.AfterAll(old(Abs()), ts), ghostOrder, sessionOrder, ghostNow, now, Abs())
    {
      ts := TakeTurns(ghostNow);
      ghostOrder := SweepGhosts(ghostNow);
      sessionOrder := SweepDisconnected(now);
    }

    /** One tick: at most CMD_BUFFER commands and MAX_PACKETS packets, the simulation, a turn for
        every zone, and the sweeps of ghosts and of disconnected sessions.  Ghosts live by the wall
        clock, `ghostNow`, and sessions by the lifecycle clock, `now`. */
    method Tick(moves: map<Id, Vec>, ghostNow: int, now: int)
      returns (ghost cmdOps: seq<Op>, ghost packetOps: seq<Op>, ghost asked: seq<Id>, ghost before: World,
               ghost ts: seq<Ticks.Turn>, ghost ghostOrder: seq<Id>, ghost sessionOrder: seq<Id>)
      requires Tracked()
      modifies this, known, Adds(cmds)
      ensures Tracked() && DoesAll(old(cmds), old(Vals(cmds)), cmdOps) && |cmdOps| == Min(|old(cmds)|, CMD_BUFFER)
      ensures cmds == old(cmds)[|cmdOps|..] && inbox == old(inbox)[Min(|old(inbox)|, MAX_PACKETS)..]
      ensures packetOps == Dispatches(old(inbox)[..Min(|old(inbox)|, MAX_PACKETS)])
      ensures Promises.TookInputs(old(Abs()), cmdOps, packetOps, moves, asked, before)
      ensures Promises.TurnsSoFar(before, ts, before.zones.Keys)
      ensures Promises.BothSwept(Ticks.AfterAll(before, ts), ghostOrder, sessionOrder, ghostNow, now, Abs())
    {
      cmdOps, packetOps, asked := TakeInputs(moves);
      before := Abs();
      ts, ghostOrder, sessionOrder := TakeTurnsAndSweep(ghostNow, now);
    }

    /** Every queued addition is of a new object under a new real id. */
    static ghost predicate NewOnly(cmds: seq<Command>, known: set<Entity>, live: set<Id>) {
      forall i :: 0 <= i < |cmds| && cmds[i].AddCommand? ==>
        && IsReal(cmds[i].e.id) && cmds[i].e !in known && cmds[i].e.id !in live
        && forall j :: 0 <= j < i && cmds[j].AddCommand? ==> cmds[j].e.id != cmds[i].e.id
    }

    static lemma NewOnlyFits(w: World, cmds: seq<Command>, vals: map<Entity, EntityVal>, ops: seq<Op>)
      requires DoesAll(cmds, vals, ops) && NewOnly(cmds, w.objs.Keys, w.entities.Keys)
      ensures AllEnabled(w, ops) && Visibility.AllDisciplined(w, ops)
    {
      forall i | 0 <= i < |ops| ensures Does(cmds[i], ops[i]) { }
      Promises.OrderlyIsDisciplined(w, ops);
    }

    static lemma DoesSessions(w: World, cmds: seq<Command>, vals: map<Entity, EntityVal>, cmdOps: seq<Op>, packetOps: seq<Op>,
                              moves: map<Id, Vec>, asked: seq<Id>, before: World)
      requires DoesAll(cmds, vals, cmdOps) && Promises.TookInputs(w, cmdOps, packetOps, moves, asked, before)
      ensures before.sessions == w.sessions
    {
      forall op | op in cmdOps ensures op.Add? || op.Remove? {
        var i :| 0 <= i < |cmdOps| && cmdOps[i] == op;
        assert Does(cmds[i], op);
      }
      Promises.TookInputsSessions(w, cmdOps, packetOps, moves, asked, before);
    }

    /** A tick of a server in good order.  `before` is its state between the inputs and the zone turns.
        With enabled and disciplined commands every live client that no other zone lists is up to date
        after the turns; after the tick it still is, unless it or something it should see was due to be
        swept, and all of them are if no session was due.  The server stays in order, and in good order
        if every entity it sweeps lived in an indexed zone. */
    method TickInOrder(moves: map<Id, Vec>, ghostNow: int, now: int)
      returns (ghost cmdOps: seq<Op>, ghost packetOps: seq<Op>, ghost asked: seq<Id>, ghost before: World,
               ghost ts: seq<Ticks.Turn>, ghost ghostOrder: seq<Id>, ghost sessionOrder: seq<Id>)
      requires Good(Abs())
      modifies this, known, Adds(cmds)
      ensures DoesAll(old(cmds), old(Vals(cmds)), cmdOps) && |cmdOps| == Min(|old(cmds)|, CMD_BUFFER)
      ensures packetOps == Dispatches(old(inbox)[..Min(|old(inbox)|, MAX_PACKETS)])
      ensures Promises.TookInputs(old(Abs()), cmdOps, packetOps, moves, asked, before) && before.sessions == old(sessions)
      ensures Promises.TurnsSoFar(before, ts, before.zones.Keys)
      ensures Promises.BothSwept(Ticks.AfterAll(before, ts), ghostOrder, sessionOrder, ghostNow, now, Abs())
      ensures NewOnly(old(cmds), old(known), old(entities).Keys) ==> AllEnabled(old(Abs()), cmdOps) && Visibility.AllDisciplined(old(Abs()), cmdOps)
      ensures AllEnabled(old(Abs()), cmdOps) && Visibility.AllDisciplined(old(Abs()), cmdOps) ==>
                && Promises.AllUpToDate(before, Ticks.AfterAll(before, ts)) && Promises.ToldUnlessSwept(before, now, Abs())
                && ((forall x :: !Due(before, x, now)) ==> Promises.AllUpToDate(before, Abs()))
                && Inv(Abs()) && (Promises.DueIndexed(before, now) ==> Good(Abs()))
    {
      InOrder();
      ghost var w := Abs();
      cmdOps, packetOps, asked, before, ts, ghostOrder, sessionOrder := Tick(moves, ghostNow, now);
      DoesSessions(w, old(cmds), old(Vals(cmds)), cmdOps, packetOps, moves, asked, before);
      if NewOnly(old(cmds), w.objs.Keys, w.entities.Keys) { NewOnlyFits(w, old(cmds), old(Vals(cmds)), cmdOps); }
      if AllEnabled(w, cmdOps) && Visibility.AllDisciplined(w, cmdOps) {
        Promises.TickKeepsItsPromise(w, cmdOps, packetOps, moves, asked, before, ts, ghostOrder, sessionOrder, ghostNow, now, Abs());
        if forall x :: !Due(before, x, now) { Promises.NoneDue(before, now, Abs()); }
      }
    }
  }
}
