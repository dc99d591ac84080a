/** Runs from an empty server that leave something behind: an entity its neighbour goes on seeing, an
    observer state without a zone, and a ghost past its time. */
module Leftovers {
  import opened Ids
  import opened Grids
  import opened Objects
  import opened Worlds
  import opened Invariants
  import opened Visibility
  import opened Clients
  import opened Sessions
  import opened Remnants
  import opened Leaks
  import Ghosts
  import H = GridHistory

  lemma ReachesObserve(ops: seq<Op>, w: World, z: ZoneId, x: Id, spawns: seq<Id>, despawns: seq<Id>)
    requires Reaches(ops, w) && Enabled(w, ObserveOne(z, x, spawns, despawns))
    ensures Reaches(ops + [ObserveOne(z, x, spawns, despawns)], Observe(w, z, x, spawns, despawns))
  {
    ReachesMore(ops, w, ObserveOne(z, x, spawns, despawns));
  }

  lemma ReachesRelease(ops: seq<Op>, w: World, z: ZoneId)
    requires Reaches(ops, w)
    ensures Reaches(ops + [Release(z)], ReleaseZone(w, z))
  {
    ReachesMore(ops, w, Release(z));
  }

  lemma ReachesMove(ops: seq<Op>, w: World, x: Id, p: Vec)
    requires Reaches(ops, w)
    ensures Reaches(ops + [MoveTo(x, p)], MoveEntity(w, x, p))
  {
    ReachesMore(ops, w, MoveTo(x, p));
  }

  lemma ReachesDetect(ops: seq<Op>, w: World, z: ZoneId, x: Id, now: int)
    requires Reaches(ops, w)
    ensures Reaches(ops + [DetectOne(z, x, now)], Detect(w, z, x, now))
  {
    ReachesMore(ops, w, DetectOne(z, x, now));
  }

  lemma ReachesExpire(ops: seq<Op>, w: World, gid: Id, now: int)
    requires Reaches(ops, w)
    ensures Reaches(ops + [ExpireOne(gid, now)], ExpireGhost(w, gid, now))
  {
    ReachesMore(ops, w, ExpireOne(gid, now));
  }

  // ---------- an entity swept in a zone nobody assigned ----------

  /** Two avatars of one Space at one place of the default zone. */
  function MeetOps(x: Id, y: Id, p: Vec, space: string, e: Entity, f: Entity): seq<Op> {
    [Add(e, Person(x, p, "", space))] + [Add(f, Person(y, p, "", space))]
  }

  /** Both live in the default zone, which is not indexed, at the same place. */
  ghost predicate Together(w: World, x: Id, y: Id, p: Vec, e: Entity, f: Entity) {
    && w.aoiIndex == map[] && w.entities == map[x := e, y := f] && w.entityZone == map[x := DEFAULT_ZONE, y := DEFAULT_ZONE]
    && Lists(w, DEFAULT_ZONE, x, e, p) && Lists(w, DEFAULT_ZONE, y, f, p)
  }

  lemma AddsTogether(x: Id, y: Id, p: Vec, space: string, e: Entity, f: Entity)
    requires x != y && e != f
    ensures var w := AddEntity(AddEntity(Start(), e, Person(x, p, "", space)), f, Person(y, p, "", space));
            Together(w, x, y, p, e, f) && w.log == [] && w.objs.Keys == {e, f}
  {
  }

  lemma MeetReached(x: Id, y: Id, p: Vec, space: string, e: Entity, f: Entity) returns (w: World)
    requires IsReal(x) && IsReal(y) && x != y && e != f
    ensures Reaches(MeetOps(x, y, p, space, e, f), w) && Together(w, x, y, p, e, f) && w.log == [] && w.objs.Keys == {e, f}
  {
    var u, v := Person(x, p, "", space), Person(y, p, "", space);
    assert [] + [Add(e, u)] == [Add(e, u)];
    ReachesAdd([], Start(), e, u);
    ReachesAdd([Add(e, u)], AddEntity(Start(), e, u), f, v);
    AddsTogether(x, y, p, space, e, f);
    w := AddEntity(AddEntity(Start(), e, u), f, v);
  }

  lemma StandsBeside(w: World, x: Id, y: Id, p: Vec, e: Entity, f: Entity)
    requires Good(w) && Together(w, x, y, p, e, f)
    ensures x in w.Surroundings(DEFAULT_ZONE, y)
  {
    assert LiveOk(w, x) && ZoneOk(w, DEFAULT_ZONE);
    InOwnRange(w.zones[DEFAULT_ZONE].grid, x);
  }

  lemma InOwnRange(g: Grid, x: Id)
    requires Standard(g) && x in g.positions
    ensures x in g.InRange(g.positions[x], AOI_RADIUS)
  {
    StandardReach(g);
    PositionedRange(g, g.positions[x], AOI_RADIUS, x);
  }

  lemma ObserveTogether(w: World, x: Id, y: Id, p: Vec, e: Entity, f: Entity, spawns: seq<Id>, despawns: seq<Id>)
    requires Together(w, x, y, p, e, f)
    ensures var w' := Observe(w, DEFAULT_ZONE, y, spawns, despawns);
            Together(w', x, y, p, e, f) && w'.Visible(y) == w.Surroundings(DEFAULT_ZONE, y)
  {
  }

  /** A client that sees a real id, other than itself, has been told of it. */
  lemma SeenIsTold(w: World, x: Id, y: Id)
    requires ClientOk(w, y) && IsReal(x) && x != y && x in w.Visible(y)
    ensures Holds(w, y, x)
  {
  }

  /** Client `y` holds `x` after replaying everything published to it. */
  ghost predicate Holds(w: World, y: Id, x: Id) {
    y in w.joined && w.joined[y] <= |w.log| && x in Replay(Events(w.log[w.joined[y]..]), y)
  }

  /** Once `y` has observed, it sees `x` and has been told so. */
  lemma SeesTheOther(ops: seq<Op>, w: World, x: Id, y: Id, p: Vec, e: Entity, f: Entity, spawns: seq<Id>, despawns: seq<Id>)
    requires Reaches(ops, w) && Together(w, x, y, p, e, f) && x != y && IsReal(x) && Enabled(w, ObserveOne(DEFAULT_ZONE, y, spawns, despawns))
    ensures var w' := Observe(w, DEFAULT_ZONE, y, spawns, despawns);
            && Reaches(ops + [ObserveOne(DEFAULT_ZONE, y, spawns, despawns)], w') && Together(w', x, y, p, e, f)
            && x in w'.Visible(y) && Good(w') && Holds(w', y, x)
  {
    DisciplinedRun(ops);
    StandsBeside(w, x, y, p, e, f);
    ObserveTogether(w, x, y, p, e, f, spawns, despawns);
    ReachesObserve(ops, w, DEFAULT_ZONE, y, spawns, despawns);
    DisciplinedRun(ops + [ObserveOne(DEFAULT_ZONE, y, spawns, despawns)]);
    assert ClientOk(Observe(w, DEFAULT_ZONE, y, spawns, despawns), y);
    SeenIsTold(Observe(w, DEFAULT_ZONE, y, spawns, despawns), x, y);
  }

  /** The two meet, `y` observes, and `x` disconnects and is swept. */
  function SightOps(x: Id, y: Id, p: Vec, space: string, e: Entity, f: Entity, spawns: seq<Id>, despawns: seq<Id>, t: int, now: int): seq<Op> {
    MeetOps(x, y, p, space, e, f) + [ObserveOne(DEFAULT_ZONE, y, spawns, despawns)] + [Disconnect(x, t)] + [SweepOne(x, now)]
  }

  lemma SweptTogether(w: World, x: Id, y: Id, p: Vec, e: Entity, f: Entity, t: int, now: int)
    requires Together(w, x, y, p, e, f) && x != y && x in w.Visible(y) && Holds(w, y, x) && now - t > RECONNECT_WINDOW
    ensures var w4 := MarkDisconnected(w, x, t);
            var w5 := SweepSession(w4, x, now);
            && x in w4.entities && Due(w4, x, now) && !OwnIndex(w4, DEFAULT_ZONE) && w4.Obj(w4.entities[x]).position == p
            && x !in w5.entities && y in w5.entities && Lists(w5, DEFAULT_ZONE, y, f, p) && x in w5.Visible(y) && Holds(w5, y, x)
  {
  }

  lemma MarkedInOrder(w: World, x: Id, t: int)
    requires Inv(w)
    ensures Inv(MarkDisconnected(w, x, t))
  {
    StepKeeps(w, Disconnect(x, t));
  }

  lemma LiveIsClean(w: World, x: Id)
    requires AllSettled(w) && x in w.entities && LiveOk(w, x)
    ensures w.GridOf(w.entityZone[x]).CleanFor(x)
  {
    assert Settled(w, w.entityZone[x]);
  }

  lemma {:induction false} HoldsOn(evs: seq<Event>, more: seq<Event>, y: Id, x: Id)
    requires x in Replay(evs, y) && forall ev :: ev in more ==> !(ev.kind.Despawn? && ev.subject == x)
    ensures x in Replay(evs + more, y)
    decreases |more|
  {
    if more == [] {
      assert evs + more == evs;
    } else {
      var front, ev := more[..|more| - 1], more[|more| - 1];
      HoldsOn(evs, front, y, x);
      assert evs + more == (evs + front) + [ev];
      ReplayAppend(evs + front, ev, y);
    }
  }

  lemma StillHolds(w: World, z: ZoneId, y: Id, x: Id, spawns: seq<Id>, despawns: seq<Id>)
    requires z in w.zones && y in w.zones[z].entities && Holds(w, y, x) && !DespawnedBy(w, z, y, spawns, despawns, x)
    ensures Holds(Observe(w, z, y, spawns, despawns), y, x)
  {
    var w' := Observe(w, z, y, spawns, despawns);
    ObserveLog(w, z, y, spawns, despawns);
    LogHolds(w.log, w'.log, w.joined[y], y, x);
  }

  lemma LogHolds(log: seq<Attempt>, log': seq<Attempt>, j: nat, y: Id, x: Id)
    requires j <= |log| <= |log'| && log'[..|log|] == log && x in Replay(Events(log[j..]), y)
    requires forall i :: |log| <= i < |log'| ==> !(log'[i].event.kind.Despawn? && log'[i].event.subject == x)
    ensures x in Replay(Events(log'[j..]), y)
  {
    var more := Events(log'[|log|..]);
    forall ev | ev in more ensures !(ev.kind.Despawn? && ev.subject == x) {
      var i :| 0 <= i < |more| && more[i] == ev;
      assert log'[|log| + i].event == ev;
    }
    HoldsOn(Events(log[j..]), more, y, x);
    EventsAppend(log, log', more, j);
  }

  /** The failing input: an avatar swept from the default zone.  Its neighbour observes again and is
      told nothing, so its client goes on holding an entity that is no longer live. */
  lemma SweptStaysInSight(x: Id, y: Id, p: Vec, space: string, e: Entity, f: Entity, spawns: seq<Id>, despawns: seq<Id>, t: int, now: int,
                          spawns': seq<Id>, despawns': seq<Id>)
    requires IsReal(x) && IsReal(y) && x != y && e != f && now - t > RECONNECT_WINDOW
    requires Enabled(Run(Start(), MeetOps(x, y, p, space, e, f)), ObserveOne(DEFAULT_ZONE, y, spawns, despawns))
    requires Enabled(Run(Start(), SightOps(x, y, p, space, e, f, spawns, despawns, t, now)), ObserveOne(DEFAULT_ZONE, y, spawns', despawns'))
    ensures var ops := SightOps(x, y, p, space, e, f, spawns, despawns, t, now);
            var w := Run(Start(), ops);
            && AllEnabled(Start(), ops) && x !in w.entities && y in w.entities && x in w.Visible(y)
            && !DespawnedBy(w, DEFAULT_ZONE, y, spawns', despawns', x) && Holds(Observe(w, DEFAULT_ZONE, y, spawns', despawns'), y, x)
  {
    var w := MeetReached(x, y, p, space, e, f);
    var ops := MeetOps(x, y, p, space, e, f);
    SeesTheOther(ops, w, x, y, p, e, f, spawns, despawns);
    ops, w := ops + [ObserveOne(DEFAULT_ZONE, y, spawns, despawns)], Observe(w, DEFAULT_ZONE, y, spawns, despawns);
    SweptTogether(w, x, y, p, e, f, t, now);
    MarkedInOrder(w, x, t);
    assert LiveOk(w, x);
    LiveIsClean(w, x);
    SweepEnds(ops, w, x, t, now);
    SweptIsToldIff(MarkDisconnected(w, x, t), x, now, [], y, spawns', despawns');
    StillHolds(SweepSession(MarkDisconnected(w, x, t), x, now), DEFAULT_ZONE, y, x, spawns', despawns');
  }

  lemma SweepEnds(ops: seq<Op>, w: World, x: Id, t: int, now: int)
    requires AllEnabled(Start(), ops) && Run(Start(), ops) == w
    ensures AllEnabled(Start(), ops + [Disconnect(x, t)] + [SweepOne(x, now)])
    ensures Run(Start(), ops + [Disconnect(x, t)] + [SweepOne(x, now)]) == SweepSession(MarkDisconnected(w, x, t), x, now)
  {
    EnabledMore(Start(), ops, Disconnect(x, t));
    RunMore(Start(), ops, Disconnect(x, t));
    EnabledMore(Start(), ops + [Disconnect(x, t)], SweepOne(x, now));
    RunMore(Start(), ops + [Disconnect(x, t)], SweepOne(x, now));
  }

  // ---------- an observer state without a zone ----------

  /** `x` is swept from an assigned zone, observes once more, and the zone is released. */
  function StrayOps(zone: Zone, x: Id, p: Vec, e: Entity, t: int, now: int): seq<Op> {
    [Assign(zone)] + [Add(e, Person(x, p, zone.id, ""))] + [Disconnect(x, t)] + [SweepOne(x, now)]
  }

  /** The failing input: the release leaves the observer state of an id that is not live and that no
      zone lists. */
  lemma StrayObserverStays(zone: Zone, x: Id, p: Vec, e: Entity, t: int, now: int, spawns: seq<Id>, despawns: seq<Id>)
    requires zone.id != "" && IsReal(x) && now - t > RECONNECT_WINDOW
    requires Enabled(Run(Start(), StrayOps(zone, x, p, e, t, now)), ObserveOne(zone.id, x, spawns, despawns))
    ensures var ops := StrayOps(zone, x, p, e, t, now) + [ObserveOne(zone.id, x, spawns, despawns)] + [Release(zone.id)];
            var w := Run(Start(), ops);
            Reaches(ops, w) && x in w.entityAOI && x !in w.entities && !ListedSomewhere(w, x) && !ObserversListed(w)
  {
    var w := StrayReached(zone, x, p, e, t, now);
    var ops := StrayOps(zone, x, p, e, t, now);
    ReachesObserve(ops, w, zone.id, x, spawns, despawns);
    StrayObserves(w, zone.id, x, spawns, despawns);
    ReachesRelease(ops + [ObserveOne(zone.id, x, spawns, despawns)], Observe(w, zone.id, x, spawns, despawns), zone.id);
    StrayAfterRelease(Observe(w, zone.id, x, spawns, despawns), zone.id, x);
  }

  lemma StrayReached(zone: Zone, x: Id, p: Vec, e: Entity, t: int, now: int) returns (w: World)
    requires zone.id != "" && IsReal(x) && now - t > RECONNECT_WINDOW
    ensures Reaches(StrayOps(zone, x, p, e, t, now), w)
    ensures w.zones.Keys == {zone.id} && x !in w.entities && x !in w.entityZone && x in w.zones[zone.id].entities
  {
    OneAssigned(zone);
    w := LeftoverSwept([Assign(zone)], AssignZone(Start(), zone), zone, x, p, e, t, now);
  }

  lemma StrayObserves(w: World, z: ZoneId, x: Id, spawns: seq<Id>, despawns: seq<Id>)
    requires w.zones.Keys == {z} && x !in w.entities && x !in w.entityZone && x in w.zones[z].entities
    ensures var w' := Observe(w, z, x, spawns, despawns);
            w'.zones.Keys == {z} && x in w'.entityAOI && x !in w'.entities && x !in w'.entityZone
  {
  }

  lemma StrayAfterRelease(w: World, z: ZoneId, x: Id)
    requires w.zones.Keys == {z} && x in w.entityAOI && x !in w.entities && x !in w.entityZone
    ensures var w' := ReleaseZone(w, z);
            x in w'.entityAOI && x !in w'.entities && !ListedSomewhere(w', x) && !ObserversListed(w')
  {
  }

  // ---------- a local ghost that was left twice ----------

  /** `x` is the live entity `e` of zone `z`, stands at `at`, was last observed at `last`, and the zone's
      grid lists its ghost `n` times. */
  ghost predicate Roams(w: World, z: ZoneId, x: Id, e: Entity, at: Vec, last: Vec, n: nat) {
    && Inv(w) && z in w.zones && x in w.entities && w.entities[x] == e && x in w.entityZone && w.entityZone[x] == z
    && Lists(w, z, x, e, at) && x in w.zones[z].grid.positions
    && x in w.entityAOI && w.entityAOI[x].lastPosition == last
    && H.Listed(w.zones[z].grid.cells)[LocalGhost(x)] == n && (n > 0 ==> LocalGhost(x) in w.zones[z].grid.positions)
  }

  lemma RoamMove(w: World, z: ZoneId, x: Id, e: Entity, at: Vec, last: Vec, n: nat, p: Vec)
    requires Roams(w, z, x, e, at, last, n)
    ensures Roams(MoveEntity(w, x, p), z, x, e, p, last, n)
  {
    assert ZoneOk(w, z);
    StepKeeps(w, MoveTo(x, p));
    MovedGrid(w, x, p, z);
    MoveKeepsListings(w, x, p);
    H.MoveListings(w.zones[z].grid, x, p);
    EnterPositions(w.zones[z].grid, x, p);
  }

  lemma RoamDetect(w: World, z: ZoneId, x: Id, e: Entity, at: Vec, last: Vec, n: nat, now: int)
    requires Roams(w, z, x, e, at, last, n) && EMPTY_GRID.CellOf(at) != EMPTY_GRID.CellOf(last)
    ensures var w' := Detect(w, z, x, now);
            && Roams(w', z, x, e, at, last, n + 1)
            && LocalGhost(x) in w'.ghosts && w'.ghosts[LocalGhost(x)] == GhostEntry(false, x, z, last, now + GHOST_TTL)
  {
    assert ZoneOk(w, z);
    StepKeeps(w, DetectOne(z, x, now));
    DetectedGrid(w, z, x, e, at, last, now);
    DetectKeepsListings(w, z, x, now);
    GhostListed(w.zones[z].grid, LocalGhost(x), last);
  }

  lemma DetectedGrid(w: World, z: ZoneId, x: Id, e: Entity, at: Vec, last: Vec, now: int)
    requires Lists(w, z, x, e, at) && x in w.entityAOI && w.entityAOI[x].lastPosition == last
    requires w.zones[z].grid.cellSize == CELL_SIZE && EMPTY_GRID.CellOf(at) != EMPTY_GRID.CellOf(last)
    ensures var w' := Detect(w, z, x, now);
            && z in w'.zones && w'.zones[z].grid == w.zones[z].grid.Enter(LocalGhost(x), last)
            && w'.ghosts == w.ghosts[LocalGhost(x) := GhostEntry(false, x, z, last, now + GHOST_TTL)]
  {
    assert w.zones[z].grid.CellOf(at) == EMPTY_GRID.CellOf(at) && w.zones[z].grid.CellOf(last) == EMPTY_GRID.CellOf(last);
  }

  lemma GhostListed(g: Grid, gid: Id, p: Vec)
    requires g.Valid()
    ensures H.Listed(g.Enter(gid, p).cells)[gid] == H.Listed(g.cells)[gid] + 1
    ensures g.Enter(gid, p).positions == g.positions[gid := p]
  {
    H.StepListings(g, H.Enter(gid, p), gid);
  }

  lemma RoamObserve(w: World, z: ZoneId, x: Id, e: Entity, at: Vec, last: Vec, n: nat, spawns: seq<Id>, despawns: seq<Id>)
    requires Roams(w, z, x, e, at, last, n) && Enabled(w, ObserveOne(z, x, spawns, despawns))
    ensures Roams(Observe(w, z, x, spawns, despawns), z, x, e, at, at, n)
  {
    StepKeeps(w, ObserveOne(z, x, spawns, despawns));
  }

  /** `x` crosses into another cell, is observed there, and crosses back: a ghost is left each time. */
  function CrossOps(zone: Zone, x: Id, p: Vec, q: Vec, e: Entity, t: int, spawns: seq<Id>, despawns: seq<Id>, t': int): seq<Op> {
    CrossOnce(zone, x, p, q, e, t) + [ObserveOne(zone.id, x, spawns, despawns)] + [MoveTo(x, p)] + [DetectOne(zone.id, x, t')]
  }

  function CrossOnce(zone: Zone, x: Id, p: Vec, q: Vec, e: Entity, t: int): seq<Op> {
    [Assign(zone)] + [Add(e, Person(x, p, zone.id, ""))] + [MoveTo(x, q)] + [DetectOne(zone.id, x, t)]
  }

  lemma RoamStarts(zone: Zone, x: Id, p: Vec, e: Entity)
    requires zone.id != "" && IsReal(x)
    ensures var w := AddEntity(AssignZone(Start(), zone), e, Person(x, p, zone.id, ""));
            Reaches([Assign(zone)] + [Add(e, Person(x, p, zone.id, ""))], w) && Roams(w, zone.id, x, e, p, p, 0)
  {
    OneAssigned(zone);
    var w0, v := AssignZone(Start(), zone), Person(x, p, zone.id, "");
    ReachesAdd([Assign(zone)], w0, e, v);
    RunKeeps(Start(), [Assign(zone)] + [Add(e, v)]);
    AddFirst(w0, zone, x, p, "", e);
    AddGrids(w0, e, v, zone.id);
    H.StepListings(EMPTY_GRID, H.Enter(x, p), LocalGhost(x));
  }

  /** One crossing: the move and the detection that follows it. */
  lemma RoamCrosses(ops: seq<Op>, w: World, z: ZoneId, x: Id, e: Entity, at: Vec, n: nat, p: Vec, now: int)
    requires Reaches(ops, w) && Roams(w, z, x, e, at, at, n) && EMPTY_GRID.CellOf(p) != EMPTY_GRID.CellOf(at)
    ensures var w' := Detect(MoveEntity(w, x, p), z, x, now);
            && Reaches(ops + [MoveTo(x, p)] + [DetectOne(z, x, now)], w') && Roams(w', z, x, e, p, at, n + 1)
            && LocalGhost(x) in w'.ghosts && w'.ghosts[LocalGhost(x)] == GhostEntry(false, x, z, at, now + GHOST_TTL)
  {
    ReachesMove(ops, w, x, p);
    RoamMove(w, z, x, e, at, at, n, p);
    ReachesDetect(ops + [MoveTo(x, p)], MoveEntity(w, x, p), z, x, now);
    RoamDetect(MoveEntity(w, x, p), z, x, e, p, at, n, now);
  }

  /** The failing input: an entity that crosses into another cell and back within the life of its ghost.
      Past its expiry the ghost is out of the ghosts, and some query still reports it. */
  lemma ReenteredLocalGhostStays(zone: Zone, x: Id, p: Vec, q: Vec, e: Entity, t: int, spawns: seq<Id>, despawns: seq<Id>, t': int, now: int)
    requires zone.id != "" && IsReal(x) && EMPTY_GRID.CellOf(p) != EMPTY_GRID.CellOf(q) && now > t' + GHOST_TTL
    requires Enabled(Run(Start(), CrossOnce(zone, x, p, q, e, t)), ObserveOne(zone.id, x, spawns, despawns))
    ensures var ops := CrossOps(zone, x, p, q, e, t, spawns, despawns, t') + [ExpireOne(LocalGhost(x), now)];
            var w := Run(Start(), ops);
            Reaches(ops, w) && LocalGhost(x) !in w.ghosts && zone.id in w.zones && !H.NeverReported(w.zones[zone.id].grid, LocalGhost(x))
  {
    RoamStarts(zone, x, p, e);
    var ops := [Assign(zone)] + [Add(e, Person(x, p, zone.id, ""))];
    var w := AddEntity(AssignZone(Start(), zone), e, Person(x, p, zone.id, ""));
    RoamCrosses(ops, w, zone.id, x, e, p, 0, q, t);
    ops, w := CrossOnce(zone, x, p, q, e, t), Detect(MoveEntity(w, x, q), zone.id, x, t);
    RoamCrossesBack(ops, w, zone.id, x, e, p, q, spawns, despawns, t');
    ops, w := CrossOps(zone, x, p, q, e, t, spawns, despawns, t'), Detect(MoveEntity(Observe(w, zone.id, x, spawns, despawns), x, p), zone.id, x, t');
    RoamExpires(ops, w, zone.id, x, e, p, q, t', now);
  }

  lemma RoamCrossesBack(ops: seq<Op>, w: World, z: ZoneId, x: Id, e: Entity, p: Vec, q: Vec, spawns: seq<Id>, despawns: seq<Id>, now: int)
    requires Reaches(ops, w) && Roams(w, z, x, e, q, p, 1) && EMPTY_GRID.CellOf(p) != EMPTY_GRID.CellOf(q)
    requires Enabled(w, ObserveOne(z, x, spawns, despawns))
    ensures var w' := Detect(MoveEntity(Observe(w, z, x, spawns, despawns), x, p), z, x, now);
            && Reaches(ops + [ObserveOne(z, x, spawns, despawns)] + [MoveTo(x, p)] + [DetectOne(z, x, now)], w')
            && Roams(w', z, x, e, p, q, 2)
            && LocalGhost(x) in w'.ghosts && w'.ghosts[LocalGhost(x)] == GhostEntry(false, x, z, q, now + GHOST_TTL)
  {
    ReachesObserve(ops, w, z, x, spawns, despawns);
    RoamObserve(w, z, x, e, q, p, 1, spawns, despawns);
    RoamCrosses(ops + [ObserveOne(z, x, spawns, despawns)], Observe(w, z, x, spawns, despawns), z, x, e, q, 1, p, now);
  }

  lemma RoamExpires(ops: seq<Op>, w: World, z: ZoneId, x: Id, e: Entity, at: Vec, last: Vec, t: int, now: int)
    requires Reaches(ops, w) && Roams(w, z, x, e, at, last, 2) && now > t + GHOST_TTL
    requires LocalGhost(x) in w.ghosts && w.ghosts[LocalGhost(x)] == GhostEntry(false, x, z, last, t + GHOST_TTL)
    ensures var w' := ExpireGhost(w, LocalGhost(x), now);
            Reaches(ops + [ExpireOne(LocalGhost(x), now)], w') && LocalGhost(x) !in w'.ghosts && z in w'.zones
            && !H.NeverReported(w'.zones[z].grid, LocalGhost(x))
  {
    ReachesExpire(ops, w, LocalGhost(x), now);
    ExpiredGrid(w, z, LocalGhost(x), now);
    Ghosts.ExpiredLocalGhostHiddenIff(w, LocalGhost(x), now);
  }

  lemma ExpiredGrid(w: World, z: ZoneId, gid: Id, now: int)
    requires z in w.zones && gid in w.ghosts && w.ghosts[gid].originZone == z && now > w.ghosts[gid].expiresAt
    ensures var w' := ExpireGhost(w, gid, now); gid !in w'.ghosts && z in w'.zones && w'.zones[z].grid == w'.GridOf(z)
  {
  }
}
