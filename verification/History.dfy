/** What the latest relevant steps of a run say about one entry of the server's maps: where an entity's
    object believes it lives, which local ghost stands for it, and what is known of a neighbour's. */
module History {
  import opened Ids
  import opened Objects
  import opened Worlds
  import opened Invariants
  import opened Sessions

  // ---------- zone ids ----------

  ghost predicate KnowsZone(w: World, x: Id) {
    x in w.entities && x in w.entityZone ==> w.Obj(w.entities[x]).zoneId == w.entityZone[x]
  }

  lemma AddKnowsZone(w: World, e: Entity, v: EntityVal, x: Id)
    requires Enabled(w, Add(e, v)) && KnowsZone(w, x) && (x in w.entities ==> LiveOk(w, x))
    ensures KnowsZone(AddEntity(w, e, v), x)
  {
  }

  lemma MoveKnowsZone(w: World, y: Id, p: Vec, x: Id)
    requires KnowsZone(w, x)
    ensures KnowsZone(MoveEntity(w, y, p), x)
  {
  }

  /** Entities only go, and objects stay as they are. */
  ghost predicate Shrinks(w: World, w': World) {
    && w'.objs == w.objs && (forall u :: u in w'.entities ==> u in w.entities && w'.entities[u] == w.entities[u])
    && forall u :: u in w'.entityZone ==> u in w.entityZone && w'.entityZone[u] == w.entityZone[u]
  }

  lemma OtherStepsShrink(w: World, op: Op)
    requires !op.Add? && !op.MoveTo?
    ensures Shrinks(w, Step(w, op))
  {
    if op.Release? || op.Remove? || op.SweepOne? { GoingShrinks(w, op); } else { StayingShrinks(w, op); }
  }

  lemma GoingShrinks(w: World, op: Op)
    requires op.Release? || op.Remove? || op.SweepOne?
    ensures Shrinks(w, Step(w, op))
  {
    if op.Release? { ReleaseShrinks(w, op.z); } else if op.Remove? { RemoveShrinks(w, op.x); } else { SweepEffect(w, op.x, op.now); }
  }

  lemma ReleaseShrinks(w: World, z: ZoneId)
    ensures Shrinks(w, ReleaseZone(w, z))
  {
  }

  lemma RemoveShrinks(w: World, x: Id)
    ensures Shrinks(w, RemoveEntity(w, x))
  {
  }

  lemma StayingShrinks(w: World, op: Op)
    requires !op.Add? && !op.MoveTo? && !op.Release? && !op.Remove? && !op.SweepOne?
    ensures Step(w, op).objs == w.objs && Step(w, op).entities == w.entities && Step(w, op).entityZone == w.entityZone
  {
  }

  lemma StepKnowsZone(w: World, op: Op, x: Id)
    requires Agree(w) && Enabled(w, op) && KnowsZone(w, x)
    ensures KnowsZone(Step(w, op), x)
  {
    if op.Add? {
      if x in w.entities { assert LiveOk(w, x); }
      AddKnowsZone(w, op.e, op.v, x);
    }
    else if op.MoveTo? { MoveKnowsZone(w, op.x, op.p, x); }
    else { OtherStepsShrink(w, op); }
  }

  /** In every run the object of a live entity names the zone it lives in. */
  lemma {:induction false} ZoneIdsFollowInEveryRun(ops: seq<Op>, x: Id)
    requires AllEnabled(Start(), ops)
    ensures KnowsZone(Run(Start(), ops), x)
    decreases |ops|
  {
    if ops != [] {
      var front := ops[..|ops| - 1];
      FrontEnabled(Start(), ops);
      ZoneIdsFollowInEveryRun(front, x);
      RunKeeps(Start(), front);
      StepKnowsZone(Run(Start(), front), ops[|ops| - 1], x);
    }
  }

  // ---------- local ghosts ----------

  /** The entry of `x` in zone `z` stands in another cell, 100 wide, than at the last observation. */
  predicate Crossed(w: World, z: ZoneId, x: Id) {
    && z in w.zones && x in w.zones[z].entities && x in w.entityAOI
    && var p, q := w.entityAOI[x].lastPosition, w.Obj(w.zones[z].entities[x]).position;
       (p.x / 100.0).Floor != (q.x / 100.0).Floor || (p.z / 100.0).Floor != (q.z / 100.0).Floor
  }

  /** Reading the history backwards: the ghost left by the latest crossing, unless it has expired or its
      zone has been released since. */
  ghost function LatestCrossing(ops: seq<Op>, gid: Id): Option<GhostEntry> {
    if ops == [] then None
    else CrossingAfter(Run(Start(), ops[..|ops| - 1]), ops[|ops| - 1], gid, LatestCrossing(ops[..|ops| - 1], gid))
  }

  ghost function CrossingAfter(w: World, op: Op, gid: Id, before: Option<GhostEntry>): Option<GhostEntry> {
    if op.DetectOne? && gid == op.x + "_ghost" && Crossed(w, op.z, op.x)
    then Some(GhostEntry(false, op.x, op.z, w.entityAOI[op.x].lastPosition, op.now + 5000))
    else if op.ExpireOne? && op.gid == gid && before.Some? && op.now > before.value.expiresAt then None
    else if op.Release? && op.z in w.zones && before.Some? && before.value.originZone == op.z then None
    else before
  }

  ghost predicate GhostIs(w: World, gid: Id, entry: Option<GhostEntry>) {
    if entry.Some? then gid in w.ghosts && w.ghosts[gid] == entry.value else gid !in w.ghosts
  }

  lemma CrossedIff(w: World, z: ZoneId, x: Id, now: int)
    requires z in w.zones ==> w.zones[z].grid.cellSize == CELL_SIZE
    ensures Detect(w, z, x, now).ghosts
         == if Crossed(w, z, x) then w.ghosts[LocalGhost(x) := GhostEntry(false, x, z, w.entityAOI[x].lastPosition, now + 5000)] else w.ghosts
  {
  }

  lemma OtherStepsLeaveGhosts(w: World, op: Op)
    requires !op.DetectOne? && !op.ExpireOne? && !op.Release?
    ensures Step(w, op).ghosts == w.ghosts
  {
    match op
    case Assign(_) =>
    case MoveTo(_, _) =>
    case ObserveOne(_, _, _, _) =>
    case _ =>
  }

  /** In every run a local ghost is what the latest crossing has left, until its time is over or its zone
      is released. */
  lemma {:induction false} LocalGhostIsLatestCrossing(ops: seq<Op>, gid: Id)
    requires AllEnabled(Start(), ops)
    ensures GhostIs(Run(Start(), ops), gid, LatestCrossing(ops, gid))
    decreases |ops|
  {
    if ops != [] {
      var front := ops[..|ops| - 1];
      FrontEnabled(Start(), ops);
      LocalGhostIsLatestCrossing(front, gid);
      RunKeeps(Start(), front);
      StepCrossing(Run(Start(), front), ops[|ops| - 1], gid, LatestCrossing(front, gid));
    }
  }

  lemma DetectCrossing(w: World, z: ZoneId, x: Id, now: int, gid: Id, before: Option<GhostEntry>)
    requires ZonesOk(w) && GhostIs(w, gid, before)
    ensures GhostIs(Detect(w, z, x, now), gid, CrossingAfter(w, DetectOne(z, x, now), gid, before))
  {
    if z in w.zones { assert ZoneOk(w, z); }
    CrossedIff(w, z, x, now);
  }

  lemma StepCrossing(w: World, op: Op, gid: Id, before: Option<GhostEntry>)
    requires ZonesOk(w) && GhostIs(w, gid, before)
    ensures GhostIs(Step(w, op), gid, CrossingAfter(w, op, gid, before))
  {
    if op.DetectOne? { DetectCrossing(w, op.z, op.x, op.now, gid, before); }
    else if op.ExpireOne? { ExpireGhosts(w, op.gid, op.now, gid); }
    else if op.Release? { ReleaseGhosts(w, op.z, gid); }
    else { OtherStepsLeaveGhosts(w, op); }
  }

  lemma ExpireGhosts(w: World, gid: Id, now: int, id: Id)
    ensures var w' := ExpireGhost(w, gid, now);
            && (id in w'.ghosts <==> id in w.ghosts && !(id == gid && now > w.ghosts[id].expiresAt))
            && (id in w'.ghosts ==> w'.ghosts[id] == w.ghosts[id])
  {
    ExpiredGhosts(w, gid, now);
  }

  lemma ExpiredGhosts(w: World, gid: Id, now: int)
    ensures ExpireGhost(w, gid, now).ghosts == if gid in w.ghosts && now > w.ghosts[gid].expiresAt then w.ghosts - {gid} else w.ghosts
  {
  }

  lemma ReleaseGhosts(w: World, z: ZoneId, id: Id)
    ensures var w' := ReleaseZone(w, z);
            && (id in w'.ghosts <==> id in w.ghosts && !(z in w.zones && w.ghosts[id].originZone == z))
            && (id in w'.ghosts ==> w'.ghosts[id] == w.ghosts[id])
  {
  }

  /** In every run each local ghost stands for an entity of a zone that still exists. */
  lemma {:induction false} LocalGhostsHaveZones(ops: seq<Op>, gid: Id)
    requires AllEnabled(Start(), ops)
    ensures var w := Run(Start(), ops); gid in w.ghosts ==> w.ghosts[gid].originZone in w.zones
    decreases |ops|
  {
    if ops != [] {
      var front, op := ops[..|ops| - 1], ops[|ops| - 1];
      var w := Run(Start(), front);
      FrontEnabled(Start(), ops);
      LocalGhostsHaveZones(front, gid);
      RunKeeps(Start(), front);
      StepGhostsHaveZones(w, op, gid);
    }
  }

  lemma StepGhostsHaveZones(w: World, op: Op, gid: Id)
    requires ZonesOk(w) && (gid in w.ghosts ==> w.ghosts[gid].originZone in w.zones)
    ensures var w' := Step(w, op); gid in w'.ghosts ==> w'.ghosts[gid].originZone in w'.zones
  {
    if op.DetectOne? {
      if op.z in w.zones { assert ZoneOk(w, op.z); }
      CrossedIff(w, op.z, op.x, op.now);
    }
    else if op.ExpireOne? { ExpireGhosts(w, op.gid, op.now, gid); }
    else if op.Release? { ReleaseGhosts(w, op.z, gid); }
    else { OtherStepsLeaveGhosts(w, op); ZonesStay(w, op); }
  }

  lemma ZonesStay(w: World, op: Op)
    requires !op.Release?
    ensures w.zones.Keys <= Step(w, op).zones.Keys
  {
    if op.Add? || op.Remove? || op.Assign? { EntityStepsKeepZones(w, op); }
    else if op.Report? || op.Timeout? || op.PeerEnter? || op.PeerLeave? || op.PeerUpdate? { MirrorKeepsListings(w, op); }
    else { OtherStepsKeepZones(w, op); }
  }

  lemma EntityStepsKeepZones(w: World, op: Op)
    requires op.Add? || op.Remove? || op.Assign?
    ensures w.zones.Keys <= Step(w, op).zones.Keys
  {
  }

  lemma OtherStepsKeepZones(w: World, op: Op)
    requires op.MoveTo? || op.DetectOne? || op.ObserveOne? || op.ExpireOne? || op.Disconnect? || op.Reconnect? || op.SweepOne? || op.Load? || op.Take?
    ensures Step(w, op).zones.Keys == w.zones.Keys
  {
    if op.MoveTo? { MoveKeepsListings(w, op.x, op.p); }
    else if op.DetectOne? { DetectKeepsListings(w, op.z, op.x, op.now); }
    else if op.ExpireOne? { ExpireKeepsListings(w, op.gid, op.now); }
    else if op.SweepOne? { SweepKeepsListings(w, op.x, op.now); }
  }

  // ---------- mirrored ghosts ----------

  /** The zone exists and was assigned. */
  predicate Assigned(w: World, z: ZoneId) {
    z in w.aoiIndex && z in w.zones && w.zones[z].zone.Some?
  }

  /** What is known of the neighbour's entity behind ghost `gid` of zone `z` after a step.  An announcement
      and a report tell its position, an update that of a known one; each lets it live 30 seconds longer.
      A leave, a timeout and a new or released zone end it. */
  ghost function NewsAfter(w: World, op: Op, z: ZoneId, gid: Id, before: Option<GhostEntry>): Option<GhostEntry> {
    match op
    case PeerEnter(y, x, p, now) => if y == z && gid == x + "@ghost" && z in w.aoiIndex then Some(GhostEntry(true, x, z, p, now + 30000)) else before
    case PeerUpdate(y, x, p, now) =>
      if y == z && gid == x + "@ghost" && z in w.aoiIndex && before.Some?
      then Some(before.value.(position := p, expiresAt := now + 30000)) else before
    case PeerLeave(y, x) => if y == z && gid == x + "@ghost" && z in w.aoiIndex then None else before
    case Report(y, n, x, p, now) => if y == z && gid == x + "@ghost" && Assigned(w, z) then Some(GhostEntry(true, x, n, p, now + 30000)) else before
    case Timeout(y, g, now) => if y == z && g == gid && Assigned(w, z) && before.Some? && now > before.value.expiresAt then None else before
    case Assign(zone) => if zone.id == z && z !in w.zones then None else before
    case Load(y, _, _) => if y == z && z !in w.aoiIndex then None else before
    case Release(y) => if y == z && z in w.zones then None else before
    case _ => before
  }

  ghost function LatestNews(ops: seq<Op>, z: ZoneId, gid: Id): Option<GhostEntry> {
    if ops == [] then None
    else NewsAfter(Run(Start(), ops[..|ops| - 1]), ops[|ops| - 1], z, gid, LatestNews(ops[..|ops| - 1], z, gid))
  }

  ghost predicate MirrorIs(w: World, z: ZoneId, gid: Id, entry: Option<GhostEntry>) {
    if entry.Some? then z in w.ghostStore && gid in w.ghostStore[z] && w.ghostStore[z][gid] == entry.value
    else z in w.ghostStore ==> gid !in w.ghostStore[z]
  }

  lemma PeerNews(w: World, op: Op, z: ZoneId, gid: Id, before: Option<GhostEntry>)
    requires w.ghostStore.Keys == w.aoiIndex.Keys && MirrorIs(w, z, gid, before) && (op.PeerEnter? || op.PeerLeave? || op.PeerUpdate?)
    ensures MirrorIs(Step(w, op), z, gid, NewsAfter(w, op, z, gid, before))
  {
    if op.PeerEnter? { PeerEnterNews(w, op.z, op.x, op.p, op.now, z, gid, before); }
    else if op.PeerLeave? { PeerLeaveNews(w, op.z, op.x, z, gid, before); }
    else { PeerUpdateNews(w, op.z, op.x, op.p, op.now, z, gid, before); }
  }

  lemma PeerEnterNews(w: World, y: ZoneId, x: Id, p: Vec, now: int, z: ZoneId, gid: Id, before: Option<GhostEntry>)
    requires w.ghostStore.Keys == w.aoiIndex.Keys && MirrorIs(w, z, gid, before)
    ensures MirrorIs(GhostEnter(w, y, x, p, now), z, gid, NewsAfter(w, PeerEnter(y, x, p, now), z, gid, before))
  {
    if y in w.aoiIndex {
      PeerEnterStores(w, y, x, p, now);
      StoredAfter(w, y, x, y, p, now, GhostEnter(w, y, x, p, now));
    }
  }

  lemma PeerEnterStores(w: World, y: ZoneId, x: Id, p: Vec, now: int)
    requires y in w.aoiIndex && y in w.ghostStore
    ensures GhostEnter(w, y, x, p, now).ghostStore == StoreGhost(w, y, x, y, p, now).ghostStore
  {
  }

  /** The store after ghost `x` of zone `y` has been stored. */
  lemma StoredAfter(w: World, y: ZoneId, x: Id, origin: ZoneId, p: Vec, now: int, w': World)
    requires w.ghostStore.Keys == w.aoiIndex.Keys
    requires w'.ghostStore == (if y in w.ghostStore then StoreGhost(w, y, x, origin, p, now).ghostStore else w.ghostStore)
    ensures y !in w.ghostStore ==> w'.ghostStore == w.ghostStore
    ensures y in w.ghostStore ==> w'.ghostStore == w.ghostStore[y := w.ghostStore[y][x + "@ghost" := GhostEntry(true, x, origin, p, now + 30000)]]
  {
  }

  lemma PeerLeaveNews(w: World, y: ZoneId, x: Id, z: ZoneId, gid: Id, before: Option<GhostEntry>)
    requires w.ghostStore.Keys == w.aoiIndex.Keys && MirrorIs(w, z, gid, before)
    ensures MirrorIs(GhostLeave(w, y, x), z, gid, NewsAfter(w, PeerLeave(y, x), z, gid, before))
  {
  }

  lemma PeerUpdateNews(w: World, y: ZoneId, x: Id, p: Vec, now: int, z: ZoneId, gid: Id, before: Option<GhostEntry>)
    requires w.ghostStore.Keys == w.aoiIndex.Keys && MirrorIs(w, z, gid, before)
    ensures MirrorIs(GhostUpdate(w, y, x, p, now), z, gid, NewsAfter(w, PeerUpdate(y, x, p, now), z, gid, before))
  {
  }

  lemma ReportNews(w: World, y: ZoneId, n: ZoneId, x: Id, p: Vec, now: int, z: ZoneId, gid: Id, before: Option<GhostEntry>)
    requires w.ghostStore.Keys == w.aoiIndex.Keys && MirrorIs(w, z, gid, before)
    ensures MirrorIs(ReportGhost(w, y, n, x, p, now), z, gid, NewsAfter(w, Report(y, n, x, p, now), z, gid, before))
  {
    if Assigned(w, y) {
      ReportStores(w, y, n, x, p, now);
      StoredAfter(w, y, x, n, p, now, ReportGhost(w, y, n, x, p, now));
    }
  }

  lemma ReportStores(w: World, y: ZoneId, n: ZoneId, x: Id, p: Vec, now: int)
    requires Assigned(w, y) && y in w.ghostStore
    ensures ReportGhost(w, y, n, x, p, now).ghostStore == StoreGhost(w, y, x, n, p, now).ghostStore
  {
  }

  lemma TimeoutNews(w: World, y: ZoneId, g: Id, now: int, z: ZoneId, gid: Id, before: Option<GhostEntry>)
    requires GhostsOk(w) && MirrorIs(w, z, gid, before)
    ensures MirrorIs(TimeoutGhost(w, y, g, now), z, gid, NewsAfter(w, Timeout(y, g, now), z, gid, before))
  {
    if before.Some? { assert MirrorOk(w, z, gid); }
  }

  lemma ZoneNews(w: World, op: Op, z: ZoneId, gid: Id, before: Option<GhostEntry>)
    requires w.ghostStore.Keys == w.aoiIndex.Keys && MirrorIs(w, z, gid, before) && (op.Assign? || op.Load? || op.Release?)
    ensures MirrorIs(Step(w, op), z, gid, NewsAfter(w, op, z, gid, before))
  {
  }

  lemma OtherStepsLeaveStore(w: World, op: Op)
    requires !op.PeerEnter? && !op.PeerLeave? && !op.PeerUpdate? && !op.Report? && !op.Timeout? && !op.Assign? && !op.Load? && !op.Release?
    ensures Step(w, op).ghostStore == w.ghostStore
  {
    match op
    case MoveTo(_, _) =>
    case ObserveOne(_, _, _, _) =>
    case _ =>
  }

  lemma StepNews(w: World, op: Op, z: ZoneId, gid: Id, before: Option<GhostEntry>)
    requires GhostsOk(w) && MirrorIs(w, z, gid, before)
    ensures MirrorIs(Step(w, op), z, gid, NewsAfter(w, op, z, gid, before))
  {
    if op.PeerEnter? || op.PeerLeave? || op.PeerUpdate? { PeerNews(w, op, z, gid, before); }
    else if op.Report? { ReportNews(w, op.z, op.neighbor, op.x, op.p, op.now, z, gid, before); }
    else if op.Timeout? { TimeoutNews(w, op.z, op.gid, op.now, z, gid, before); }
    else if op.Assign? || op.Load? || op.Release? { ZoneNews(w, op, z, gid, before); }
    else { OtherStepsLeaveStore(w, op); }
  }

  /** In every run the stored entry of a mirrored ghost is the latest news of it. */
  lemma {:induction false} MirrorIsLatestNews(ops: seq<Op>, z: ZoneId, gid: Id)
    requires AllEnabled(Start(), ops)
    ensures MirrorIs(Run(Start(), ops), z, gid, LatestNews(ops, z, gid))
    decreases |ops|
  {
    if ops != [] {
      var front := ops[..|ops| - 1];
      FrontEnabled(Start(), ops);
      MirrorIsLatestNews(front, z, gid);
      RunKeeps(Start(), front);
      StepNews(Run(Start(), front), ops[|ops| - 1], z, gid, LatestNews(front, z, gid));
    }
  }
}
