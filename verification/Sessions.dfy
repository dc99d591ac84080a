/** Disconnects: who is swept, when, and what the sweep leaves behind. */
module Sessions {
  import opened Ids
  import opened Grids
  import opened Objects
  import opened Worlds
  import opened Invariants
  import opened Clients
  import opened Spaces

  predicate Expired(t: int, now: int) {
    now - t > 30000
  }

  /** Reading the history backwards: the time of the latest effective mark of `x` if that is a
      disconnect.  A disconnect counts only while `x` is live; a reconnect always counts; a sweep
      that acts on a mark uses it up. */
  ghost function LastDisconnect(ops: seq<Op>, x: Id): Option<int> {
    if ops == [] then None
    else
      var front, op := ops[..|ops| - 1], ops[|ops| - 1];
      var before := LastDisconnect(front, x);
      if op.Disconnect? && op.x == x && x in Run(Start(), front).entities then Some(op.now)
      else if op.Reconnect? && op.x == x then None
      else if op.SweepOne? && op.x == x && before.Some? && Expired(before.value, op.now) then None
      else before
  }

  ghost predicate SessionIs(w: World, x: Id, mark: Option<int>) {
    match mark
    case Some(t) => x in w.sessions && w.sessions[x] == Disconnected(t)
    case None => x in w.sessions ==> w.sessions[x].Active?
  }

  lemma OtherStepsKeepSessions(w: World, op: Op)
    requires !op.Disconnect? && !op.Reconnect? && !op.SweepOne?
    ensures Step(w, op).sessions == w.sessions
  {
    match op
    case Assign(_) =>
    case MoveTo(_, _) =>
    case _ =>
  }

  /** In every run the stored session is the latest effective mark. */
  lemma {:induction false} SessionIsLatestMark(ops: seq<Op>, x: Id)
    ensures SessionIs(Run(Start(), ops), x, LastDisconnect(ops, x))
    decreases |ops|
  {
    if ops != [] {
      var front, op := ops[..|ops| - 1], ops[|ops| - 1];
      SessionIsLatestMark(front, x);
      if !op.Disconnect? && !op.Reconnect? && !op.SweepOne? { OtherStepsKeepSessions(Run(Start(), front), op); }
    }
  }

  lemma SweepEffect(w: World, x: Id, now: int)
    ensures var w', gone := SweepSession(w, x, now), if Due(w, x, now) then {x} else {};
            && w'.entities == w.entities - gone && w'.entityZone == w.entityZone - gone
            && w'.entityAOI == w.entityAOI - gone && w'.sessions == w.sessions - gone
  {
  }

  /** A sweep of one session takes the entity from all four maps exactly when its latest effective
      mark is a disconnect older than the window, and changes no other entry of them. */
  lemma SweepRemovesExactly(ops: seq<Op>, x: Id, now: int)
    ensures var w, w' := Run(Start(), ops), SweepSession(Run(Start(), ops), x, now);
            var mark := LastDisconnect(ops, x);
            var gone := if mark.Some? && Expired(mark.value, now) then {x} else {};
            && w'.entities == w.entities - gone && w'.entityZone == w.entityZone - gone
            && w'.entityAOI == w.entityAOI - gone && w'.sessions == w.sessions - gone
  {
    SessionIsLatestMark(ops, x);
    SweepEffect(Run(Start(), ops), x, now);
  }

  // ---------- the whole sweep ----------

  /** SweepDisconnected at `now`: every session is looked at once. */
  function SweepOps(order: seq<Id>, now: int): seq<Op> {
    seq(|order|, i requires 0 <= i < |order| => SweepOne(order[i], now))
  }

  lemma SweepAnother(w: World, order: seq<Id>, x: Id, now: int)
    ensures Run(w, SweepOps(order + [x], now)) == SweepSession(Run(w, SweepOps(order, now)), x, now)
  {
    RunMore(w, SweepOps(order, now), SweepOne(x, now));
    assert SweepOps(order + [x], now) == SweepOps(order, now) + [SweepOne(x, now)];
  }

  /** What a sweep takes from the four maps. */
  ghost predicate Swept(w: World, w': World, gone: set<Id>) {
    && w'.entities == w.entities - gone && w'.entityZone == w.entityZone - gone
    && w'.entityAOI == w.entityAOI - gone && w'.sessions == w.sessions - gone
  }

  ghost function DueOf(w: World, order: seq<Id>, now: int): set<Id> {
    set x | x in order && Due(w, x, now)
  }

  lemma SweptMore(w: World, v: World, order: seq<Id>, y: Id, now: int)
    requires Swept(w, v, DueOf(w, order, now)) && y !in order
    ensures Swept(w, SweepSession(v, y, now), DueOf(w, order + [y], now))
  {
    SweepEffect(v, y, now);
    var gone := DueOf(w, order, now);
    assert DueOf(w, order + [y], now) == gone + if Due(w, y, now) then {y} else {};
    assert Due(v, y, now) == Due(w, y, now);
  }

  lemma {:induction false} SweepProgress(w: World, order: seq<Id>, now: int, k: nat)
    requires Visits(order, w.sessions.Keys) && k <= |order|
    ensures Swept(w, Run(w, SweepOps(order, now)[..k]), DueOf(w, order[..k], now))
    decreases k
  {
    var ops := SweepOps(order, now);
    if k == 0 {
      assert ops[..0] == [];
    } else {
      SweepProgress(w, order, now, k - 1);
      SweepNext(w, order, now, k);
      assert order[..k] == order[..k - 1] + [order[k - 1]];
      SweptMore(w, Run(w, ops[..k - 1]), order[..k - 1], order[k - 1], now);
    }
  }

  lemma SweepNext(w: World, order: seq<Id>, now: int, k: nat)
    requires 0 < k <= |order|
    ensures Run(w, SweepOps(order, now)[..k]) == SweepSession(Run(w, SweepOps(order, now)[..k - 1]), order[k - 1], now)
  {
    var ops := SweepOps(order, now);
    assert ops[..k] == ops[..k - 1] + [ops[k - 1]];
    RunMore(w, ops[..k - 1], ops[k - 1]);
  }

  /** In every run the whole sweep, in any map order, takes from all four maps exactly the ids whose
      latest effective mark is a disconnect older than the window. */
  lemma SweepRemovesTheDue(ops: seq<Op>, order: seq<Id>, now: int)
    requires Visits(order, Run(Start(), ops).sessions.Keys)
    ensures var w, w' := Run(Start(), ops), Run(Run(Start(), ops), SweepOps(order, now));
            forall x :: var gone := LastDisconnect(ops, x).Some? && Expired(LastDisconnect(ops, x).value, now);
                        && (x in w'.entities <==> x in w.entities && !gone) && (x in w'.entityZone <==> x in w.entityZone && !gone)
                        && (x in w'.entityAOI <==> x in w.entityAOI && !gone) && (x in w'.sessions <==> x in w.sessions && !gone)
  {
    var w := Run(Start(), ops);
    SweepProgress(w, order, now, |order|);
    assert SweepOps(order, now)[..|order|] == SweepOps(order, now);
    assert order[..|order|] == order;
    forall x ensures x in DueOf(w, order, now) <==> LastDisconnect(ops, x).Some? && Expired(LastDisconnect(ops, x).value, now) {
      SessionIsLatestMark(ops, x);
    }
  }

  // ---------- what the neighbours hear ----------

  lemma {:induction false} DespawnSubjects(current: set<Id>, space: string, x: Id, order: seq<Id>, y: Id)
    ensures y in order && y !in current <==> Event(Despawn, space, x, y, "", ORIGIN) in DespawnEvents(current, space, x, order)
    ensures forall ev :: ev in DespawnEvents(current, space, x, order) ==> ev == Event(Despawn, space, x, ev.subject, "", ORIGIN)
    decreases |order|
  {
    if order != [] {
      DespawnSubjects(current, space, x, order[..|order| - 1], y);
      assert order == order[..|order| - 1] + [order[|order| - 1]];
    }
  }

  /** The observation of `y` in zone `z` publishes a Despawn of `x`. */
  ghost predicate DespawnedBy(w: World, z: ZoneId, y: Id, spawns: seq<Id>, despawns: seq<Id>, x: Id) {
    var log := Observe(w, z, y, spawns, despawns).log;
    exists i :: |w.log| <= i < |log| && log[i].event.kind.Despawn? && log[i].event.subject == x
  }

  lemma DespawnedIff(w: World, z: ZoneId, y: Id, spawns: seq<Id>, despawns: seq<Id>, x: Id)
    requires z in w.zones && y in w.zones[z].entities && Visits(despawns, w.Visible(y))
    ensures DespawnedBy(w, z, y, spawns, despawns, x) <==> x in w.Visible(y) && x !in w.Surroundings(z, y)
  {
    var space, current := w.Obj(w.zones[z].entities[y]).runtimeId, w.Surroundings(z, y);
    var evs := DeltaEvents(w, space, y, current, spawns, despawns);
    var log := Observe(w, z, y, spawns, despawns).log;
    ObserveLog(w, z, y, spawns, despawns);
    SpawnSubjects(w, space, y, spawns);
    DespawnSubjects(current, space, y, despawns, x);
    if x in w.Visible(y) && x !in current {
      var ev := Event(Despawn, space, y, x, "", ORIGIN);
      assert ev in evs;
      var i :| 0 <= i < |evs| && evs[i] == ev;
      assert log[|w.log| + i].event == ev;
    }
    if DespawnedBy(w, z, y, spawns, despawns, x) {
      var i :| |w.log| <= i < |log| && log[i].event.kind.Despawn? && log[i].event.subject == x;
      assert log[|w.log| + (i - |w.log|)].event == evs[i - |w.log|];
      assert evs[i - |w.log|] in evs;
    }
  }

  // ---------- who has an observer state ----------

  ghost predicate ListedSomewhere(w: World, x: Id) {
    exists z :: z in w.zones && x in w.zones[z].entities
  }

  /** An id with an observer state is live, or a swept one that some zone still lists. */
  ghost predicate ObserversListed(w: World) {
    forall x :: x in w.entityAOI ==> x in w.entities || ListedSomewhere(w, x)
  }

  /** No observer that is not live is listed by zone `z` alone. */
  ghost predicate NoStrays(w: World, z: ZoneId) {
    forall x :: x in w.entityAOI && x !in w.entities ==> ListedBeside(w, z, x)
  }

  /** ReleaseZone forgets the observers it finds in entityZone only, so it keeps this order if and
      only if no swept entity observes from that zone alone. */
  lemma ReleaseListedIff(w: World, z: ZoneId)
    requires z in w.zones && Agree(w) && ObserversListed(w)
    ensures ObserversListed(ReleaseZone(w, z)) <==> NoStrays(w, z)
  {
    forall x ensures ListedSomewhere(ReleaseZone(w, z), x) <==> ListedBeside(w, z, x) { ReleasedListing(w, z, x); }
    StraysStay(w, z);
  }

  ghost predicate ListedBeside(w: World, z: ZoneId, x: Id) {
    exists y :: y in w.zones && y != z && x in w.zones[y].entities
  }

  lemma ReleasedListing(w: World, z: ZoneId, x: Id)
    requires z in w.zones
    ensures ListedSomewhere(ReleaseZone(w, z), x) <==> ListedBeside(w, z, x)
  {
    var w' := ReleaseZone(w, z);
    if y :| y in w.zones && y != z && x in w.zones[y].entities { assert y in w'.zones && x in w'.zones[y].entities; }
    if y :| y in w'.zones && x in w'.zones[y].entities { assert y in w.zones && y != z && x in w.zones[y].entities; }
  }

  lemma StraysStay(w: World, z: ZoneId)
    requires w.entities.Keys == w.entityZone.Keys
    ensures var w' := ReleaseZone(w, z);
            forall x :: x in w'.entityAOI && x !in w'.entities <==> x in w.entityAOI && x !in w.entities
  {
  }

  /** Enough for a step: listings of observers stay, and new observers are live or listed. */
  lemma StillListed(w: World, w': World)
    requires ObserversListed(w) && w'.zones.Keys >= w.zones.Keys
    requires forall z, x :: z in w.zones && x in w.zones[z].entities && x in w'.entityAOI ==> x in w'.zones[z].entities
    requires forall x :: x in w'.entityAOI ==> x in w'.entities || ListedSomewhere(w', x) || (x in w.entityAOI && x !in w.entities)
    ensures ObserversListed(w')
  {
    forall x | x in w'.entityAOI && x in w.entityAOI && x !in w.entities ensures ListedSomewhere(w', x) {
      var z :| z in w.zones && x in w.zones[z].entities;
      assert z in w'.zones && x in w'.zones[z].entities;
    }
  }

  lemma AddListedStill(w: World, e: Entity, v: EntityVal)
    requires ObserversListed(w)
    ensures ObserversListed(AddEntity(w, e, v))
  {
    StillListed(w, AddEntity(w, e, v));
  }

  lemma RemoveListedStill(w: World, x: Id)
    requires ObserversListed(w)
    ensures ObserversListed(RemoveEntity(w, x))
  {
    if x in w.entityZone {
      RemoveKeepsOthers(w, x);
      StillListed(w, RemoveEntity(w, x));
    }
  }

  lemma RemoveKeepsOthers(w: World, x: Id)
    requires x in w.entityZone
    ensures RemoveEntity(w, x).zones.Keys == w.zones.Keys
    ensures forall z, y :: z in w.zones && y in w.zones[z].entities && y != x ==> y in RemoveEntity(w, x).zones[z].entities
  {
    var z := w.entityZone[x];
    if z in w.zones { CutKeepsOthers(w, RemoveEntity(w, x), z, x, w.zones[z].grid.Leave(x)); }
  }

  lemma CutKeepsOthers(w: World, w': World, z: ZoneId, x: Id, grid: Grid)
    requires z in w.zones && w'.zones == w.zones[z := w.zones[z].(entities := w.zones[z].entities - {x}, grid := grid)]
    ensures w'.zones.Keys == w.zones.Keys
    ensures forall y, o :: y in w.zones && o in w.zones[y].entities && o != x ==> o in w'.zones[y].entities
  {
  }

  lemma ObserveListedStill(w: World, z: ZoneId, x: Id, spawns: seq<Id>, despawns: seq<Id>)
    requires ObserversListed(w)
    ensures ObserversListed(Observe(w, z, x, spawns, despawns))
  {
    if z in w.zones && x in w.zones[z].entities { assert ListedSomewhere(Observe(w, z, x, spawns, despawns), x); }
    StillListed(w, Observe(w, z, x, spawns, despawns));
  }

  lemma SweepListedStill(w: World, x: Id, now: int)
    requires ObserversListed(w)
    ensures ObserversListed(SweepSession(w, x, now))
  {
    SweepEffect(w, x, now);
    SweepKeepsListings(w, x, now);
    StillListed(w, SweepSession(w, x, now));
  }

  lemma SweepKeepsListings(w: World, x: Id, now: int)
    ensures SweepSession(w, x, now).zones.Keys == w.zones.Keys
    ensures forall z :: z in w.zones ==> SweepSession(w, x, now).zones[z].entities == w.zones[z].entities
  {
  }

  lemma OtherListedStill(w: World, op: Op)
    requires ObserversListed(w)
    requires !op.Add? && !op.Remove? && !op.Release? && !op.ObserveOne? && !op.SweepOne?
    ensures ObserversListed(Step(w, op))
  {
    OtherKeepsListings(w, op);
    StillListed(w, Step(w, op));
  }

  lemma OtherKeepsListings(w: World, op: Op)
    requires !op.Add? && !op.Remove? && !op.Release? && !op.ObserveOne? && !op.SweepOne?
    ensures Step(w, op).entityAOI == w.entityAOI && Step(w, op).entities == w.entities && Step(w, op).zones.Keys >= w.zones.Keys
    ensures forall z :: z in w.zones ==> Step(w, op).zones[z].entities == w.zones[z].entities
  {
    if op.Report? || op.Timeout? || op.PeerEnter? || op.PeerLeave? || op.PeerUpdate? {
      MirrorKeepsListings(w, op);
    } else {
      QuietKeepsListings(w, op);
    }
  }

  lemma MirrorKeepsListings(w: World, op: Op)
    requires op.Report? || op.Timeout? || op.PeerEnter? || op.PeerLeave? || op.PeerUpdate?
    ensures Step(w, op).entityAOI == w.entityAOI && Step(w, op).entities == w.entities && Step(w, op).zones.Keys == w.zones.Keys
    ensures forall z :: z in w.zones ==> Step(w, op).zones[z].entities == w.zones[z].entities
  {
    match op
    case Report(z, n, x, p, now) =>
    case Timeout(z, gid, now) =>
    case _ =>
  }

  lemma QuietKeepsListings(w: World, op: Op)
    requires op.Assign? || op.MoveTo? || op.DetectOne? || op.ExpireOne? || op.Disconnect? || op.Reconnect? || op.Load? || op.Take?
    ensures Step(w, op).entityAOI == w.entityAOI && Step(w, op).entities == w.entities && Step(w, op).zones.Keys >= w.zones.Keys
    ensures forall z :: z in w.zones ==> Step(w, op).zones[z].entities == w.zones[z].entities
  {
    if op.MoveTo? { MoveKeepsListings(w, op.x, op.p); } else { StillKeepsListings(w, op); }
  }

  lemma MoveKeepsListings(w: World, x: Id, p: Vec)
    ensures MoveEntity(w, x, p).zones.Keys == w.zones.Keys
    ensures forall z :: z in w.zones ==> MoveEntity(w, x, p).zones[z].entities == w.zones[z].entities
  {
  }

  lemma StillKeepsListings(w: World, op: Op)
    requires op.Assign? || op.DetectOne? || op.ExpireOne? || op.Disconnect? || op.Reconnect? || op.Load? || op.Take?
    ensures Step(w, op).entityAOI == w.entityAOI && Step(w, op).entities == w.entities && Step(w, op).zones.Keys >= w.zones.Keys
    ensures forall z :: z in w.zones ==> Step(w, op).zones[z].entities == w.zones[z].entities
  {
    match op
    case DetectOne(z, x, now) => DetectKeepsListings(w, z, x, now);
    case ExpireOne(gid, now) => ExpireKeepsListings(w, gid, now);
    case Assign(zone) => AssignKeepsListings(w, zone);
    case _ =>
  }

  lemma DetectKeepsListings(w: World, z: ZoneId, x: Id, now: int)
    ensures Detect(w, z, x, now).zones.Keys == w.zones.Keys
    ensures forall y :: y in w.zones ==> Detect(w, z, x, now).zones[y].entities == w.zones[y].entities
  {
  }

  lemma ExpireKeepsListings(w: World, gid: Id, now: int)
    ensures ExpireGhost(w, gid, now).zones.Keys == w.zones.Keys
    ensures forall y :: y in w.zones ==> ExpireGhost(w, gid, now).zones[y].entities == w.zones[y].entities
  {
  }

  lemma AssignKeepsListings(w: World, zone: Zone)
    ensures AssignZone(w, zone).zones.Keys >= w.zones.Keys
    ensures forall y :: y in w.zones ==> AssignZone(w, zone).zones[y].entities == w.zones[y].entities
  {
  }

  ghost predicate NeverStrays(w: World, ops: seq<Op>) {
    forall i :: 0 <= i < |ops| && ops[i].Release? ==> NoStrays(Run(w, ops[..i]), ops[i].z)
  }

  lemma StepListed(w: World, op: Op)
    requires Agree(w) && ObserversListed(w) && (op.Release? ==> NoStrays(w, op.z))
    ensures ObserversListed(Step(w, op))
  {
    match op
    case Release(z) => if z in w.zones { ReleaseListedIff(w, z); }
    case Add(e, v) => AddListedStill(w, e, v);
    case Remove(x) => RemoveListedStill(w, x);
    case ObserveOne(z, x, spawns, despawns) => ObserveListedStill(w, z, x, spawns, despawns);
    case SweepOne(x, now) => SweepListedStill(w, x, now);
    case _ => OtherListedStill(w, op);
  }

  /** In every run that releases no zone from which alone a swept entity observes: an id that is not
      live has an observer state only if some zone still lists it. */
  lemma {:induction false} ObserversListedInEveryRun(ops: seq<Op>)
    requires AllEnabled(Start(), ops) && NeverStrays(Start(), ops)
    ensures ObserversListed(Run(Start(), ops))
    decreases |ops|
  {
    if ops != [] {
      var front, op := ops[..|ops| - 1], ops[|ops| - 1];
      FrontEnabled(Start(), ops);
      FrontStrays(Start(), ops);
      ObserversListedInEveryRun(front);
      RunKeeps(Start(), front);
      StepListed(Run(Start(), front), op);
    }
  }

  lemma FrontStrays(w: World, ops: seq<Op>)
    requires NeverStrays(w, ops) && ops != []
    ensures var front, op := ops[..|ops| - 1], ops[|ops| - 1];
            NeverStrays(w, front) && (op.Release? ==> NoStrays(Run(w, front), op.z))
  {
    var front := ops[..|ops| - 1];
    assert forall i :: 0 <= i < |front| ==> front[i] == ops[i] && front[..i] == ops[..i];
  }
}
