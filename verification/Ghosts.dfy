/** Ghosts of neighbouring servers: reconciling a zone with what a neighbour reports. */
module Ghosts {
  import opened Ids
  import opened Grids
  import H = GridHistory
  import opened Worlds
  import opened Invariants

  datatype Report = Report(id: Id, p: Vec)

  /** Both loops of ReconcileNeighborGhosts run under these guards. */
  ghost predicate Reconcilable(w: World, z: ZoneId) {
    Mirrors(w, z) && z in w.zones && w.zones[z].zone.Some?
  }

  function Store(w: World, z: ZoneId): map<Id, GhostEntry> {
    if z in w.ghostStore then w.ghostStore[z] else map[]
  }

  /** The first loop: every reported entity becomes, or stays, a ghost. */
  ghost function Reported(w: World, z: ZoneId, n: ZoneId, reports: seq<Report>, now: int): World {
    if reports == [] then w
    else
      var r := reports[|reports| - 1];
      ReportGhost(Reported(w, z, n, reports[..|reports| - 1], now), z, n, r.id, r.p, now)
  }

  function Seen(reports: seq<Report>): set<Id> {
    set r | r in reports :: RemoteGhost(r.id)
  }

  /** The second loop, in the order the store is iterated: unreported ghosts past their expiry go. */
  ghost function TimedOut(w: World, z: ZoneId, seen: set<Id>, order: seq<Id>, now: int): World {
    if order == [] then w
    else
      var gid := order[|order| - 1];
      var before := TimedOut(w, z, seen, order[..|order| - 1], now);
      if gid in seen then before else TimeoutGhost(before, z, gid, now)
  }

  ghost predicate Reconciles(w: World, z: ZoneId, n: ZoneId, reports: seq<Report>, order: seq<Id>, now: int, w': World) {
    var mid := Reported(w, z, n, reports, now);
    && z in mid.ghostStore && Visits(order, mid.ghostStore[z].Keys)
    && w' == TimedOut(mid, z, Seen(reports), order, now)
  }

  // ---------- the store afterwards ----------

  lemma ReportStore(w: World, z: ZoneId, n: ZoneId, r: Report, now: int)
    requires Inv(w) && Reconcilable(w, z)
    ensures var w' := ReportGhost(w, z, n, r.id, r.p, now);
            && Reconcilable(w', z)
            && w'.ghostStore[z] == w.ghostStore[z][RemoteGhost(r.id) := GhostEntry(true, r.id, n, r.p, now + GHOST_TTL * 6)]
            && w'.ghosts == w.ghosts
  {
    ReportIsMirror(w, z, n, r.id, r.p, now);
    assert IndexOk(w, z);
  }

  lemma {:induction false} ReportedKeeps(w: World, z: ZoneId, n: ZoneId, reports: seq<Report>, now: int)
    requires Inv(w) && Reconcilable(w, z)
    ensures Inv(Reported(w, z, n, reports, now)) && Reconcilable(Reported(w, z, n, reports, now), z)
    decreases |reports|
  {
    if reports != [] {
      var front, r := reports[..|reports| - 1], reports[|reports| - 1];
      ReportedKeeps(w, z, n, front, now);
      ReportStore(Reported(w, z, n, front, now), z, n, r, now);
      ReportKeeps(Reported(w, z, n, front, now), z, n, r.id, r.p, now);
    }
  }

  /** What the reports do to the store, as a map. */
  function ReportedMap(m: map<Id, GhostEntry>, n: ZoneId, reports: seq<Report>, now: int): map<Id, GhostEntry> {
    if reports == [] then m
    else
      var r := reports[|reports| - 1];
      ReportedMap(m, n, reports[..|reports| - 1], now)[RemoteGhost(r.id) := GhostEntry(true, r.id, n, r.p, now + GHOST_TTL * 6)]
  }

  lemma {:induction false} ReportedMapHas(m: map<Id, GhostEntry>, n: ZoneId, reports: seq<Report>, now: int, gid: Id)
    ensures var m' := ReportedMap(m, n, reports, now);
            && (gid in m' <==> gid in m || gid in Seen(reports))
            && (gid in m && gid !in Seen(reports) ==> m'[gid] == m[gid])
    decreases |reports|
  {
    if reports != [] {
      var front, r := reports[..|reports| - 1], reports[|reports| - 1];
      ReportedMapHas(m, n, front, now, gid);
      assert reports == front + [r];
      assert Seen(reports) == Seen(front) + {RemoteGhost(r.id)};
    }
  }

  lemma {:induction false} ReportedStore(w: World, z: ZoneId, n: ZoneId, reports: seq<Report>, now: int)
    requires Inv(w) && Reconcilable(w, z)
    ensures Store(Reported(w, z, n, reports, now), z) == ReportedMap(Store(w, z), n, reports, now)
    decreases |reports|
  {
    if reports != [] {
      var front, r := reports[..|reports| - 1], reports[|reports| - 1];
      ReportedStore(w, z, n, front, now);
      ReportedKeeps(w, z, n, front, now);
      ReportStore(Reported(w, z, n, front, now), z, n, r, now);
    }
  }

  predicate Stale(m: map<Id, GhostEntry>, gid: Id, now: int) {
    gid in m && now > m[gid].expiresAt
  }

  lemma TimeoutStore(w: World, z: ZoneId, gid: Id, now: int)
    requires GhostsOk(w) && Reconcilable(w, z)
    ensures Reconcilable(TimeoutGhost(w, z, gid, now), z)
    ensures TimeoutGhost(w, z, gid, now).ghostStore[z]
         == if Stale(w.ghostStore[z], gid, now) then w.ghostStore[z] - {gid} else w.ghostStore[z]
  {
    if gid in w.ghostStore[z] { assert MirrorOk(w, z, gid); }
  }

  lemma {:induction false} TimedOutKeeps(w: World, z: ZoneId, seen: set<Id>, order: seq<Id>, now: int)
    requires Inv(w) && Reconcilable(w, z)
    ensures Inv(TimedOut(w, z, seen, order, now)) && Reconcilable(TimedOut(w, z, seen, order, now), z)
    decreases |order|
  {
    if order != [] {
      var front, gid := order[..|order| - 1], order[|order| - 1];
      TimedOutKeeps(w, z, seen, front, now);
      TimeoutStore(TimedOut(w, z, seen, front, now), z, gid, now);
      TimeoutKeeps(TimedOut(w, z, seen, front, now), z, gid, now);
    }
  }

  function TimedOutMap(m: map<Id, GhostEntry>, seen: set<Id>, order: seq<Id>, now: int): map<Id, GhostEntry> {
    if order == [] then m
    else
      var gid := order[|order| - 1];
      var before := TimedOutMap(m, seen, order[..|order| - 1], now);
      if gid !in seen && Stale(before, gid, now) then before - {gid} else before
  }

  lemma {:induction false} TimedOutMapHas(m: map<Id, GhostEntry>, seen: set<Id>, order: seq<Id>, now: int, x: Id)
    ensures var m' := TimedOutMap(m, seen, order, now);
            && (x in m' <==> x in m && !(x in order && x !in seen && Stale(m, x, now)))
            && (x in m' ==> m'[x] == m[x])
    decreases |order|
  {
    if order != [] {
      TimedOutMapHas(m, seen, order[..|order| - 1], now, x);
      assert order == order[..|order| - 1] + [order[|order| - 1]];
    }
  }

  lemma {:induction false} TimedOutStore(w: World, z: ZoneId, seen: set<Id>, order: seq<Id>, now: int)
    requires Inv(w) && Reconcilable(w, z)
    ensures Store(TimedOut(w, z, seen, order, now), z) == TimedOutMap(Store(w, z), seen, order, now)
    decreases |order|
  {
    if order != [] {
      var front, gid := order[..|order| - 1], order[|order| - 1];
      TimedOutStore(w, z, seen, front, now);
      TimedOutKeeps(w, z, seen, front, now);
      TimeoutStore(TimedOut(w, z, seen, front, now), z, gid, now);
    }
  }

  /** After a reconcile the store holds exactly the reported ghosts and the unreported ones that have
      not expired; every one of them stands in the grid where the store says. */
  lemma ReconciledStore(w: World, z: ZoneId, n: ZoneId, reports: seq<Report>, order: seq<Id>, now: int, w': World)
    requires Inv(w) && Reconcilable(w, z) && Reconciles(w, z, n, reports, order, now, w')
    ensures Inv(w') && Reconcilable(w', z)
    ensures forall gid :: gid in Store(w', z) <==>
              gid in Seen(reports) || (gid in Store(w, z) && now <= Store(w, z)[gid].expiresAt)
    ensures forall gid :: gid in w'.ghostStore[z] ==> MirrorOk(w', z, gid)
  {
    var mid := Reported(w, z, n, reports, now);
    ReportedKeeps(w, z, n, reports, now);
    TimedOutKeeps(mid, z, Seen(reports), order, now);
    ReportedStore(w, z, n, reports, now);
    TimedOutStore(mid, z, Seen(reports), order, now);
    forall gid ensures gid in Store(w', z) <==>
                         gid in Seen(reports) || (gid in Store(w, z) && now <= Store(w, z)[gid].expiresAt) {
      ReportedMapHas(Store(w, z), n, reports, now, gid);
      TimedOutMapHas(Store(mid, z), Seen(reports), order, now, gid);
    }
  }

  // ---------- listings ----------

  /** Reporting a ghost that is already stored adds no listing; timing one out adds none either. */
  lemma ReportListings(w: World, z: ZoneId, n: ZoneId, r: Report, now: int, id: Id)
    requires Inv(w) && Reconcilable(w, z) && RemoteGhost(r.id) in w.ghostStore[z]
    ensures H.Listed(ReportGhost(w, z, n, r.id, r.p, now).IndexGrid(z).cells)[id] == H.Listed(w.IndexGrid(z).cells)[id]
  {
    var gid, g := RemoteGhost(r.id), w.IndexGrid(z);
    assert MirrorOk(w, z, gid) && IndexOk(w, z);
    ZoneGridValid(w, z);
    H.StepListings(g, H.Move(gid, r.p), id);
    IndexGridSet(w, z, g.Move(gid, r.p));
    ReportIsMirror(w, z, n, r.id, r.p, now);
    MirrorGrid(w, z, g.Move(gid, r.p), w.ghostStore[z][gid := GhostEntry(true, r.id, n, r.p, now + GHOST_TTL * 6)]);
  }

  lemma MirrorGrid(w: World, z: ZoneId, h: Grid, store: map<Id, GhostEntry>)
    ensures Mirror(w, z, h, store).IndexGrid(z) == w.WithIndexGrid(z, h).IndexGrid(z)
  {
  }

  lemma TimeoutListings(w: World, z: ZoneId, gid: Id, now: int, id: Id)
    requires Inv(w) && Reconcilable(w, z)
    ensures H.Listed(TimeoutGhost(w, z, gid, now).IndexGrid(z).cells)[id] <= H.Listed(w.IndexGrid(z).cells)[id]
  {
    if Stale(w.ghostStore[z], gid, now) {
      assert MirrorOk(w, z, gid) && IndexOk(w, z);
      ZoneGridValid(w, z);
      H.StepListings(w.IndexGrid(z), H.Leave(gid), id);
      IndexGridSet(w, z, w.IndexGrid(z).Leave(gid));
      MirrorGrid(w, z, w.IndexGrid(z).Leave(gid), w.ghostStore[z] - {gid});
    }
  }

  lemma {:induction false} ReportedListings(w: World, z: ZoneId, n: ZoneId, reports: seq<Report>, now: int, id: Id)
    requires Inv(w) && Reconcilable(w, z) && Seen(reports) <= w.ghostStore[z].Keys
    ensures H.Listed(Reported(w, z, n, reports, now).IndexGrid(z).cells)[id] == H.Listed(w.IndexGrid(z).cells)[id]
    decreases |reports|
  {
    if reports != [] {
      var front, r := reports[..|reports| - 1], reports[|reports| - 1];
      assert reports == front + [r] && RemoteGhost(r.id) in Seen(reports);
      assert Seen(front) <= Seen(reports);
      ReportedListings(w, z, n, front, now, id);
      ReportedKeeps(w, z, n, front, now);
      ReportedStore(w, z, n, front, now);
      ReportedMapHas(Store(w, z), n, front, now, RemoteGhost(r.id));
      ReportListings(Reported(w, z, n, front, now), z, n, r, now, id);
    }
  }

  lemma {:induction false} TimedOutListings(w: World, z: ZoneId, seen: set<Id>, order: seq<Id>, now: int, id: Id)
    requires Inv(w) && Reconcilable(w, z)
    ensures H.Listed(TimedOut(w, z, seen, order, now).IndexGrid(z).cells)[id] <= H.Listed(w.IndexGrid(z).cells)[id]
    decreases |order|
  {
    if order != [] {
      var front, gid := order[..|order| - 1], order[|order| - 1];
      TimedOutListings(w, z, seen, front, now, id);
      TimedOutKeeps(w, z, seen, front, now);
      TimeoutListings(TimedOut(w, z, seen, front, now), z, gid, now, id);
    }
  }

  /** Reconciling again with the same answer never adds a listing, however often it is repeated. */
  lemma RepeatedReconcileAddsNothing(w: World, z: ZoneId, n: ZoneId, reports: seq<Report>,
                                     order1: seq<Id>, t1: int, w1: World, order2: seq<Id>, t2: int, w2: World, id: Id)
    requires Inv(w) && Reconcilable(w, z)
    requires Reconciles(w, z, n, reports, order1, t1, w1) && Reconciles(w1, z, n, reports, order2, t2, w2)
    ensures H.Listed(w2.IndexGrid(z).cells)[id] <= H.Listed(w1.IndexGrid(z).cells)[id]
  {
    ReconciledStore(w, z, n, reports, order1, t1, w1);
    ReportedListings(w1, z, n, reports, t2, id);
    ReportedKeeps(w1, z, n, reports, t2);
    TimedOutListings(Reported(w1, z, n, reports, t2), z, Seen(reports), order2, t2, id);
  }

  // ---------- an expired ghost is gone ----------

  lemma TimeoutPositions(w: World, z: ZoneId, gid: Id, now: int, x: Id)
    requires Inv(w) && Reconcilable(w, z)
    ensures var g, g' := w.IndexGrid(z), TimeoutGhost(w, z, gid, now).IndexGrid(z);
            x in g'.positions <==> x in g.positions && !(x == gid && Stale(Store(w, z), gid, now))
  {
    if Stale(w.ghostStore[z], gid, now) {
      assert MirrorOk(w, z, gid) && IndexOk(w, z);
      EnterPositions(w.IndexGrid(z), gid, ORIGIN);
      IndexGridSet(w, z, w.IndexGrid(z).Leave(gid));
      MirrorGrid(w, z, w.IndexGrid(z).Leave(gid), w.ghostStore[z] - {gid});
    }
  }

  lemma {:induction false} TimedOutPositions(w: World, z: ZoneId, seen: set<Id>, order: seq<Id>, now: int, x: Id)
    requires Inv(w) && Reconcilable(w, z) && x in order && x !in seen && Stale(Store(w, z), x, now)
    ensures x !in TimedOut(w, z, seen, order, now).IndexGrid(z).positions
    decreases |order|
  {
    var front, gid := order[..|order| - 1], order[|order| - 1];
    assert x in front || x == gid;
    TimedOutKeeps(w, z, seen, front, now);
    TimedOutStore(w, z, seen, front, now);
    TimedOutMapHas(Store(w, z), seen, front, now, x);
    if x in front { TimedOutPositions(w, z, seen, front, now, x); }
    TimeoutPositions(TimedOut(w, z, seen, front, now), z, gid, now, x);
  }

  /** A ghost the neighbour stopped reporting has left the store, and the grid no longer holds a
      position for it, after the first reconcile past its expiry. */
  lemma ExpiredGhostIsGone(w: World, z: ZoneId, n: ZoneId, reports: seq<Report>, order: seq<Id>, now: int, w': World, gid: Id)
    requires Inv(w) && Reconcilable(w, z) && Reconciles(w, z, n, reports, order, now, w')
    requires gid in Store(w, z) && gid !in Seen(reports) && now > Store(w, z)[gid].expiresAt
    ensures gid !in Store(w', z) && gid !in w'.IndexGrid(z).positions
  {
    ReconciledStore(w, z, n, reports, order, now, w');
    ReportedKeeps(w, z, n, reports, now);
    ReportedStore(w, z, n, reports, now);
    ReportedMapHas(Store(w, z), n, reports, now, gid);
    TimedOutPositions(Reported(w, z, n, reports, now), z, Seen(reports), order, now, gid);
  }

  // ---------- and when no query reports it any more ----------

  lemma ReportOtherListings(w: World, z: ZoneId, n: ZoneId, r: Report, now: int, id: Id)
    requires Inv(w) && Reconcilable(w, z) && RemoteGhost(r.id) != id
    ensures H.Listed(ReportGhost(w, z, n, r.id, r.p, now).IndexGrid(z).cells)[id] == H.Listed(w.IndexGrid(z).cells)[id]
  {
    var gid, g := RemoteGhost(r.id), w.IndexGrid(z);
    assert IndexOk(w, z);
    ZoneGridValid(w, z);
    var op := if gid in w.ghostStore[z] then H.Move(gid, r.p) else H.Enter(gid, r.p);
    H.StepListings(g, op, id);
    ReportedGrid(w, z, n, r, now);
  }

  lemma ReportedGrid(w: World, z: ZoneId, n: ZoneId, r: Report, now: int)
    requires Reconcilable(w, z) && IndexOk(w, z)
    ensures var g, gid := w.IndexGrid(z), RemoteGhost(r.id);
            ReportGhost(w, z, n, r.id, r.p, now).IndexGrid(z) == if gid in w.ghostStore[z] then g.Move(gid, r.p) else g.Enter(gid, r.p)
  {
    var g, gid := w.IndexGrid(z), RemoteGhost(r.id);
    var h := if gid in w.ghostStore[z] then g.Move(gid, r.p) else g.Enter(gid, r.p);
    ReportIsMirror(w, z, n, r.id, r.p, now);
    IndexGridSet(w, z, h);
    MirrorGrid(w, z, h, w.ghostStore[z][gid := GhostEntry(true, r.id, n, r.p, now + GHOST_TTL * 6)]);
  }

  lemma {:induction false} ReportedOtherListings(w: World, z: ZoneId, n: ZoneId, reports: seq<Report>, now: int, id: Id)
    requires Inv(w) && Reconcilable(w, z) && id !in Seen(reports)
    ensures H.Listed(Reported(w, z, n, reports, now).IndexGrid(z).cells)[id] == H.Listed(w.IndexGrid(z).cells)[id]
    decreases |reports|
  {
    if reports != [] {
      var front, r := reports[..|reports| - 1], reports[|reports| - 1];
      assert reports == front + [r] && RemoteGhost(r.id) in Seen(reports);
      assert Seen(front) <= Seen(reports);
      ReportedOtherListings(w, z, n, front, now, id);
      ReportedKeeps(w, z, n, front, now);
      ReportOtherListings(Reported(w, z, n, front, now), z, n, r, now, id);
    }
  }

  lemma TimeoutTakesOne(w: World, z: ZoneId, gid: Id, now: int, id: Id)
    requires Inv(w) && Reconcilable(w, z)
    ensures H.Listed(TimeoutGhost(w, z, gid, now).IndexGrid(z).cells)[id] + (if id == gid && Stale(Store(w, z), gid, now) then 1 else 0)
         == H.Listed(w.IndexGrid(z).cells)[id]
  {
    if Stale(w.ghostStore[z], gid, now) {
      assert MirrorOk(w, z, gid) && IndexOk(w, z);
      ZoneGridValid(w, z);
      H.StepListings(w.IndexGrid(z), H.Leave(gid), id);
      IndexGridSet(w, z, w.IndexGrid(z).Leave(gid));
      MirrorGrid(w, z, w.IndexGrid(z).Leave(gid), w.ghostStore[z] - {gid});
    }
  }

  ghost function Taken(w: World, z: ZoneId, seen: set<Id>, order: seq<Id>, now: int, id: Id): nat {
    if id in order && id !in seen && Stale(Store(w, z), id, now) then 1 else 0
  }

  lemma TakenMore(w: World, z: ZoneId, seen: set<Id>, front: seq<Id>, gid: Id, now: int, id: Id)
    requires Inv(w) && Reconcilable(w, z)
    ensures Taken(w, z, seen, front + [gid], now, id) == Taken(w, z, seen, front, now, id)
            + if gid !in seen && id == gid && Stale(Store(TimedOut(w, z, seen, front, now), z), gid, now) then 1 else 0
  {
    TimedOutStore(w, z, seen, front, now);
    TimedOutMapHas(Store(w, z), seen, front, now, id);
  }

  /** The second loop takes exactly one listing from each unreported ghost past its expiry. */
  lemma {:induction false} TimedOutTakesOne(w: World, z: ZoneId, seen: set<Id>, order: seq<Id>, now: int, id: Id)
    requires Inv(w) && Reconcilable(w, z)
    ensures H.Listed(TimedOut(w, z, seen, order, now).IndexGrid(z).cells)[id] + Taken(w, z, seen, order, now, id)
         == H.Listed(w.IndexGrid(z).cells)[id]
    decreases |order|
  {
    if order != [] {
      var front, gid := order[..|order| - 1], order[|order| - 1];
      assert order == front + [gid];
      TimedOutTakesOne(w, z, seen, front, now, id);
      TimedOutKeeps(w, z, seen, front, now);
      TakenMore(w, z, seen, front, gid, now, id);
      TimeoutTakesOne(TimedOut(w, z, seen, front, now), z, gid, now, id);
    }
  }

  lemma MirroredRange(w: World, z: ZoneId)
    requires ZonesOk(w) && Reconcilable(w, z)
    ensures w.IndexGrid(z).cellRange == 3
  {
    assert ZoneOk(w, z);
    assert AOI_RADIUS / CELL_SIZE == 3.0;
  }

  /** The expired ghost is out of every query's reach if and only if it was listed exactly once:
      a ghost that was entered while already present leaves a listing behind. */
  lemma ExpiredGhostHiddenIff(w: World, z: ZoneId, n: ZoneId, reports: seq<Report>, order: seq<Id>, now: int, w': World, gid: Id)
    requires Inv(w) && Reconcilable(w, z) && Reconciles(w, z, n, reports, order, now, w')
    requires gid in Store(w, z) && gid !in Seen(reports) && now > Store(w, z)[gid].expiresAt
    ensures H.NeverReported(w'.IndexGrid(z), gid) <==> H.Listed(w.IndexGrid(z).cells)[gid] == 1
  {
    ExpiredGhostIsGone(w, z, n, reports, order, now, w', gid);
    ReconciledStore(w, z, n, reports, order, now, w');
    MirroredRange(w', z);
    H.NeverReportedIff(w'.IndexGrid(z), gid);
    ExpiredGhostLosesOne(w, z, n, reports, order, now, w', gid);
  }

  lemma ExpiredGhostLosesOne(w: World, z: ZoneId, n: ZoneId, reports: seq<Report>, order: seq<Id>, now: int, w': World, gid: Id)
    requires Inv(w) && Reconcilable(w, z) && Reconciles(w, z, n, reports, order, now, w')
    requires gid in Store(w, z) && gid !in Seen(reports) && now > Store(w, z)[gid].expiresAt
    ensures H.Listed(w'.IndexGrid(z).cells)[gid] + 1 == H.Listed(w.IndexGrid(z).cells)[gid]
  {
    ReportedOtherListings(w, z, n, reports, now, gid);
    ReportedKeeps(w, z, n, reports, now);
    ReportedStore(w, z, n, reports, now);
    ReportedMapHas(Store(w, z), n, reports, now, gid);
    TimedOutTakesOne(Reported(w, z, n, reports, now), z, Seen(reports), order, now, gid);
  }

  /** The same for the ghosts a server leaves behind in its own zones. */
  lemma ExpiredLocalGhostHiddenIff(w: World, gid: Id, now: int)
    requires Inv(w) && gid in w.ghosts && now > w.ghosts[gid].expiresAt
    ensures var g := w.GridOf(w.ghosts[gid].originZone);
            H.NeverReported(ExpireGhost(w, gid, now).GridOf(w.ghosts[gid].originZone), gid)
            <==> H.Listed(g.cells)[gid] == if gid in g.positions then 1 else 0
  {
    var z := w.ghosts[gid].originZone;
    if z in w.zones { assert ZoneOk(w, z); }
    assert AOI_RADIUS / CELL_SIZE == 3.0;
    H.LeaveHidesIff(w.GridOf(z), gid);
  }

  /** A neighbour announces one entity twice and then falls silent. */
  function ReentryOps(zone: Zone, x: Id, p: Vec, q: Vec, t: int, now: int): seq<Op> {
    [Assign(zone), PeerEnter(zone.id, x, p, t), PeerEnter(zone.id, x, q, t), Timeout(zone.id, RemoteGhost(x), now)]
  }

  /** The failing input: announced twice, anywhere in the first cell, the ghost is out of the store
      past its expiry, and a query around the zero vector still reports it. */
  lemma ReenteredGhostStays(zone: Zone, x: Id, p: Vec, q: Vec, t: int, now: int)
    requires 0.0 <= p.x < 100.0 && 0.0 <= p.z < 100.0 && 0.0 <= q.x < 100.0 && 0.0 <= q.z < 100.0
    requires now > t + GHOST_TTL * 6
    ensures var w := Run(Start(), ReentryOps(zone, x, p, q, t, now));
            && AllEnabled(Start(), ReentryOps(zone, x, p, q, t, now))
            && zone.id in w.ghostStore && RemoteGhost(x) !in w.ghostStore[zone.id]
            && RemoteGhost(x) in w.IndexGrid(zone.id).InRange(ORIGIN, 300.0)
  {
    ReentryRun(zone, x, p, q, t, now);
    ReenteredReported(RemoteGhost(x), p, q);
  }

  lemma ReentryRun(zone: Zone, x: Id, p: Vec, q: Vec, t: int, now: int)
    requires now > t + GHOST_TTL * 6
    ensures var w := Run(Start(), ReentryOps(zone, x, p, q, t, now));
            && AllEnabled(Start(), ReentryOps(zone, x, p, q, t, now))
            && zone.id in w.ghostStore && RemoteGhost(x) !in w.ghostStore[zone.id]
            && w.IndexGrid(zone.id) == EMPTY_GRID.Enter(RemoteGhost(x), p).Enter(RemoteGhost(x), q).Leave(RemoteGhost(x))
  {
    EnabledAnywhere(Start(), ReentryOps(zone, x, p, q, t, now));
    ReentryUnrolled(zone, x, p, q, t, now);
    TwiceEntered(AssignZone(Start(), zone), zone.id, x, p, q, t, now);
  }

  lemma ReentryUnrolled(zone: Zone, x: Id, p: Vec, q: Vec, t: int, now: int)
    ensures Run(Start(), ReentryOps(zone, x, p, q, t, now))
         == TimeoutGhost(GhostEnter(GhostEnter(AssignZone(Start(), zone), zone.id, x, p, t), zone.id, x, q, t),
                         zone.id, RemoteGhost(x), now)
  {
    var a, b, c, d := Assign(zone), PeerEnter(zone.id, x, p, t), PeerEnter(zone.id, x, q, t), Timeout(zone.id, RemoteGhost(x), now);
    FourSteps(a, b, c, d);
    var w := AssignZone(Start(), zone);
    PeerSteps(w, zone.id, x, p, q, t, now);
  }

  lemma PeerSteps(w: World, z: ZoneId, x: Id, p: Vec, q: Vec, t: int, now: int)
    ensures Step(Step(Step(w, PeerEnter(z, x, p, t)), PeerEnter(z, x, q, t)), Timeout(z, RemoteGhost(x), now))
         == TimeoutGhost(GhostEnter(GhostEnter(w, z, x, p, t), z, x, q, t), z, RemoteGhost(x), now)
  {
    PeerEnterStep(w, z, x, p, t);
    PeerEnterStep(GhostEnter(w, z, x, p, t), z, x, q, t);
  }

  lemma PeerEnterStep(w: World, z: ZoneId, x: Id, p: Vec, t: int)
    ensures Step(w, PeerEnter(z, x, p, t)) == GhostEnter(w, z, x, p, t)
  {
  }

  lemma ReenteredReported(gid: Id, p: Vec, q: Vec)
    requires 0.0 <= p.x < 100.0 && 0.0 <= p.z < 100.0 && 0.0 <= q.x < 100.0 && 0.0 <= q.z < 100.0
    ensures gid in EMPTY_GRID.Enter(gid, p).Enter(gid, q).Leave(gid).InRange(ORIGIN, 300.0)
  {
    H.ReentryLeaksListing(gid, p, q);
    H.ThreeSteps(EMPTY_GRID, H.Enter(gid, p), H.Enter(gid, q), H.Leave(gid));
  }

  lemma EnabledAnywhere(w: World, ops: seq<Op>)
    requires forall op :: op in ops ==> !op.Add? && !op.ObserveOne? && !op.Load?
    ensures AllEnabled(w, ops)
  {
  }

  lemma TwiceEntered(w: World, z: ZoneId, x: Id, p: Vec, q: Vec, t: int, now: int)
    requires Mirrors(w, z) && w.aoiIndex[z].OfZone? && z in w.zones && w.zones[z].zone.Some? && now > t + GHOST_TTL * 6
    ensures var gid, w' := RemoteGhost(x), TimeoutGhost(GhostEnter(GhostEnter(w, z, x, p, t), z, x, q, t), z, RemoteGhost(x), now);
            && z in w'.ghostStore && gid !in w'.ghostStore[z]
            && w'.IndexGrid(z) == w.IndexGrid(z).Enter(gid, p).Enter(gid, q).Leave(gid)
  {
    OnceEntered(w, z, x, p, t);
    OnceEntered(GhostEnter(w, z, x, p, t), z, x, q, t);
  }

  lemma OnceEntered(w: World, z: ZoneId, x: Id, p: Vec, t: int)
    requires Mirrors(w, z) && w.aoiIndex[z].OfZone? && z in w.zones && w.zones[z].zone.Some?
    ensures var gid, w' := RemoteGhost(x), GhostEnter(w, z, x, p, t);
            && Mirrors(w', z) && w'.aoiIndex[z].OfZone? && z in w'.zones && w'.zones[z].zone.Some?
            && w'.IndexGrid(z) == w.IndexGrid(z).Enter(gid, p)
            && gid in w'.ghostStore[z] && w'.ghostStore[z][gid] == GhostEntry(true, x, z, p, t + GHOST_TTL * 6)
  {
  }

  lemma RunTwo(w: World, ops: seq<Op>, a: Op, b: Op)
    ensures Run(w, ops + [a] + [b]) == Step(Step(Run(w, ops), a), b)
  {
    RunMore(w, ops, a);
    RunMore(w, ops + [a], b);
  }

  lemma FourSteps(a: Op, b: Op, c: Op, d: Op)
    ensures Run(Start(), [a, b, c, d]) == Step(Step(Step(Step(Start(), a), b), c), d)
  {
    RunTwo(Start(), [], a, b);
    assert [] + [a] + [b] == [a, b];
    RunTwo(Start(), [a, b], c, d);
    assert [a, b] + [c] + [d] == [a, b, c, d];
  }

  /** In every run each mirrored ghost stands in its zone's grid where the store says. */
  lemma GhostsStandInEveryRun(ops: seq<Op>, z: ZoneId, gid: Id)
    requires AllEnabled(Start(), ops)
    requires var w := Run(Start(), ops); z in w.ghostStore && gid in w.ghostStore[z]
    ensures var w := Run(Start(), ops);
            gid in w.IndexGrid(z).positions && w.IndexGrid(z).positions[gid] == w.ghostStore[z][gid].position
  {
    RunKeeps(Start(), ops);
    assert MirrorOk(Run(Start(), ops), z, gid);
  }
}
