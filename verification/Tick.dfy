/** The zone turns of one tick: after them every client of the server is up to date. */
module Ticks {
  import opened Ids
  import opened Worlds
  import opened Invariants
  import opened Visibility
  import opened Clients

  /** What a tick does with one zone: detectZoneBoundaries, then updateVisibility. */
  datatype Turn = Turn(z: ZoneId, detects: seq<Id>, now: int, pass: seq<Op>, order: seq<Id>)

  ghost function Detected(w: World, t: Turn): World {
    Run(w, DetectOps(t.z, t.detects, t.now))
  }

  ghost function After(w: World, t: Turn): World {
    Run(Detected(w, t), t.pass)
  }

  ghost predicate TurnOk(w: World, t: Turn) {
    IsPass(Detected(w, t), t.z, t.pass, t.order) && AllEnabled(Detected(w, t), t.pass)
  }

  ghost function AfterAll(w: World, ts: seq<Turn>): World {
    if ts == [] then w else After(AfterAll(w, ts[..|ts| - 1]), ts[|ts| - 1])
  }

  ghost predicate TurnsOk(w: World, ts: seq<Turn>) {
    forall i :: 0 <= i < |ts| ==> TurnOk(AfterAll(w, ts[..i]), ts[i])
  }

  /** No zone but its own lists `x`. */
  ghost predicate AtHome(w: World, x: Id) {
    x in w.entityZone && forall z :: z in w.zones && x in w.zones[z].entities ==> z == w.entityZone[x]
  }

  // ---------- what a turn leaves alone ----------

  /** Who is where is as before, and the log has only grown. */
  ghost predicate SameScene(w: World, w': World) {
    && w'.entities == w.entities && w'.entityZone == w.entityZone && w'.objs == w.objs && w'.joined == w.joined
    && w'.zones.Keys == w.zones.Keys && (forall z :: z in w.zones ==> w'.zones[z].entities == w.zones[z].entities)
    && |w'.log| >= |w.log| && w'.log[..|w.log|] == w.log
  }

  ghost predicate NothingFor(w: World, w': World, x: Id) {
    forall i :: |w.log| <= i < |w'.log| ==> w'.log[i].event.observer != x
  }

  lemma SameSceneTrans(a: World, b: World, c: World, x: Id)
    requires SameScene(a, b) && SameScene(b, c)
    ensures SameScene(a, c)
    ensures NothingFor(a, b, x) && NothingFor(b, c, x) && |b.log| <= |c.log| ==> NothingFor(a, c, x)
  {
    forall i | |a.log| <= i < |b.log| ensures c.log[i] == b.log[i] { assert c.log[..|b.log|][i] == b.log[i]; }
    assert c.log[..|a.log|] == c.log[..|b.log|][..|a.log|];
  }

  lemma DetectScene(w: World, z: ZoneId, x: Id, now: int)
    ensures SameScene(w, Detect(w, z, x, now)) && Detect(w, z, x, now).log == w.log
  {
  }

  lemma {:induction false} DetectsScene(w: World, z: ZoneId, order: seq<Id>, now: int, x: Id)
    ensures SameScene(w, Run(w, DetectOps(z, order, now))) && Run(w, DetectOps(z, order, now)).log == w.log
    decreases |order|
  {
    if order != [] {
      var front := order[..|order| - 1];
      DetectsScene(w, z, front, now, x);
      assert DetectOps(z, order, now)[..|order| - 1] == DetectOps(z, front, now);
      var before := Run(w, DetectOps(z, front, now));
      DetectScene(before, z, order[|order| - 1], now);
      SameSceneTrans(w, before, Detect(before, z, order[|order| - 1], now), x);
    }
  }

  lemma ObserveScene(w: World, z: ZoneId, y: Id, spawns: seq<Id>, despawns: seq<Id>, x: Id)
    requires z in w.zones && y in w.zones[z].entities && y != x
    ensures SameScene(w, Observe(w, z, y, spawns, despawns)) && NothingFor(w, Observe(w, z, y, spawns, despawns), x)
  {
    ObserveLog(w, z, y, spawns, despawns);
  }

  lemma {:induction false} PassScene(w: World, z: ZoneId, pass: seq<Op>, order: seq<Id>, k: nat, x: Id)
    requires IsPass(w, z, pass, order) && k <= |pass| && x !in order
    ensures SameScene(w, Run(w, pass[..k])) && NothingFor(w, Run(w, pass[..k]), x)
    decreases k
  {
    if k == 0 {
      assert pass[..0] == [];
    } else {
      PassScene(w, z, pass, order, k - 1, x);
      assert pass[..k][..k - 1] == pass[..k - 1];
      var before, op := Run(w, pass[..k - 1]), pass[k - 1];
      assert order[k - 1] in order;
      ObserveScene(before, z, op.x, op.spawns, op.despawns, x);
      SameSceneTrans(w, before, Observe(before, z, op.x, op.spawns, op.despawns), x);
    }
  }

  /** Entities, their zones and the zones' listings are as before. */
  ghost predicate SamePlaces(w: World, w': World) {
    && w'.entities == w.entities && w'.entityZone == w.entityZone && w'.zones.Keys == w.zones.Keys
    && forall z :: z in w.zones ==> w'.zones[z].entities == w.zones[z].entities
  }

  lemma HomeStays(w: World, w': World, x: Id)
    requires SamePlaces(w, w') && AtHome(w, x)
    ensures AtHome(w', x)
  {
  }

  // ---------- a turn keeps the state good ----------

  lemma {:induction false} RunGood(w: World, ops: seq<Op>)
    requires Good(w) && AllEnabled(w, ops) && forall i :: 0 <= i < |ops| ==> !ops[i].Add? && !ops[i].SweepOne?
    ensures Good(Run(w, ops))
    decreases |ops|
  {
    if ops != [] {
      FrontEnabled(w, ops);
      RunGood(w, ops[..|ops| - 1]);
      StepGood(Run(w, ops[..|ops| - 1]), ops[|ops| - 1]);
    }
  }

  lemma TurnGood(w: World, t: Turn)
    requires Good(w) && TurnOk(w, t)
    ensures Good(Detected(w, t)) && Good(After(w, t))
  {
    RunGood(w, DetectOps(t.z, t.detects, t.now));
    RunGood(Detected(w, t), t.pass);
  }

  // ---------- who is up to date ----------

  /** Client `x`, live in its zone, has been told exactly what it should see. */
  ghost predicate UpToDate(w: World, x: Id) {
    x in w.entities && x in w.entityZone && SeesExactly(w, w.entityZone[x], x)
  }

  /** Telling others things leaves `x` up to date. */
  lemma StaysUpToDate(w: World, w': World, x: Id)
    requires UpToDate(w, x) && SameScene(w, w') && NothingFor(w, w', x)
    ensures UpToDate(w', x)
  {
    HeardSame(w.log, w'.log, w.joined[x], x);
    SameToSee(w, w', w.entityZone[x], x);
    var heard := w'.log[w.joined[x]..];
    if forall a :: a in heard && a.event.observer == x ==> a.accepted { NothingMissed(heard, x); }
  }

  lemma SameToSee(w: World, w': World, z: ZoneId, x: Id)
    requires x in w.entities && w'.entities == w.entities && w'.entityZone == w.entityZone && w'.objs == w.objs
    ensures ShouldSee(w', z, x) == ShouldSee(w, z, x)
  {
    assert forall y :: Near(w', z, x, y) == Near(w, z, x, y);
  }

  lemma HeardSame(log: seq<Attempt>, log': seq<Attempt>, j: nat, x: Id)
    requires j <= |log| <= |log'| && log'[..|log|] == log
    requires forall i :: |log| <= i < |log'| ==> log'[i].event.observer != x
    ensures Replay(Events(log'[j..]), x) == Replay(Events(log[j..]), x)
  {
    var more := Events(log'[|log|..]);
    EventsAppend(log, log', more, j);
    forall ev | ev in more ensures ev.observer != x {
      var i :| 0 <= i < |more| && more[i] == ev;
      assert log'[|log| + i].event == ev;
    }
    ReplayOthers(Events(log[j..]), more, x);
  }

  lemma DetectsStayUpToDate(w: World, t: Turn, x: Id)
    requires UpToDate(w, x)
    ensures UpToDate(Detected(w, t), x) && Detected(w, t).entityZone == w.entityZone
  {
    DetectsScene(w, t.z, t.detects, t.now, x);
    StaysUpToDate(w, Detected(w, t), x);
  }

  lemma PassStaysUpToDate(w: World, z: ZoneId, pass: seq<Op>, order: seq<Id>, x: Id)
    requires AtHome(w, x) && IsPass(w, z, pass, order) && UpToDate(w, x) && w.entityZone[x] != z
    ensures UpToDate(Run(w, pass), x)
  {
    PassScene(w, z, pass, order, |pass|, x);
    assert pass[..|pass|] == pass;
    StaysUpToDate(w, Run(w, pass), x);
  }

  /** The turn of another zone leaves `x` up to date. */
  lemma OtherTurn(w: World, t: Turn, x: Id)
    requires TurnOk(w, t) && AtHome(w, x) && UpToDate(w, x) && w.entityZone[x] != t.z
    ensures UpToDate(After(w, t), x)
  {
    DetectsStayUpToDate(w, t, x);
    DetectsScene(w, t.z, t.detects, t.now, x);
    HomeStays(w, Detected(w, t), x);
    PassStaysUpToDate(Detected(w, t), t.z, t.pass, t.order, x);
  }

  /** The turn of its own zone brings `x` up to date. */
  lemma OwnTurn(w: World, t: Turn, x: Id)
    requires Good(w) && TurnOk(w, t) && x in w.entities && x in w.entityZone && w.entityZone[x] == t.z
    ensures UpToDate(After(w, t), x)
  {
    var w1 := Detected(w, t);
    DetectsScene(w, t.z, t.detects, t.now, x);
    TurnGood(w, t);
    PassBringsUpToDate(w1, t.z, t.pass, t.order, x);
    assert LiveOk(w1, x);
    PassEnds(w1, t.z, t.pass, t.order, x);
  }

  ghost predicate Visited(ts: seq<Turn>, z: ZoneId) {
    exists i :: 0 <= i < |ts| && ts[i].z == z
  }

  lemma TurnScene(w: World, t: Turn, x: Id)
    requires TurnOk(w, t)
    ensures SamePlaces(w, After(w, t))
  {
    DetectsScene(w, t.z, t.detects, t.now, x);
    assert t.pass[..|t.pass|] == t.pass;
    PassSees(Detected(w, t), t.z, t.pass, t.order, |t.pass|);
  }

  lemma FrontTurns(w: World, ts: seq<Turn>)
    requires TurnsOk(w, ts) && ts != []
    ensures TurnsOk(w, ts[..|ts| - 1]) && TurnOk(AfterAll(w, ts[..|ts| - 1]), ts[|ts| - 1])
  {
    var front := ts[..|ts| - 1];
    assert forall i :: 0 <= i < |front| ==> front[i] == ts[i] && front[..i] == ts[..i];
  }

  lemma {:induction false} TurnsGood(w: World, ts: seq<Turn>)
    requires Good(w) && TurnsOk(w, ts)
    ensures Good(AfterAll(w, ts))
    decreases |ts|
  {
    if ts != [] {
      FrontTurns(w, ts);
      TurnsGood(w, ts[..|ts| - 1]);
      TurnGood(AfterAll(w, ts[..|ts| - 1]), ts[|ts| - 1]);
    }
  }

  lemma {:induction false} TurnsScene(w: World, ts: seq<Turn>)
    requires TurnsOk(w, ts)
    ensures SamePlaces(w, AfterAll(w, ts))
    decreases |ts|
  {
    if ts != [] {
      FrontTurns(w, ts);
      TurnsScene(w, ts[..|ts| - 1]);
      TurnScene(AfterAll(w, ts[..|ts| - 1]), ts[|ts| - 1], "");
    }
  }

  lemma {:induction false} TurnsProgress(w: World, ts: seq<Turn>, x: Id)
    requires Good(w) && TurnsOk(w, ts) && x in w.entities && AtHome(w, x) && Visited(ts, w.entityZone[x])
    ensures UpToDate(AfterAll(w, ts), x)
    decreases |ts|
  {
    var front, t := ts[..|ts| - 1], ts[|ts| - 1];
    LastTurnReady(w, ts, x);
    if t.z != w.entityZone[x] {
      VisitedBefore(ts, w.entityZone[x]);
      TurnsProgress(w, front, x);
    }
    TurnProgress(AfterAll(w, front), t, x);
  }

  lemma LastTurnReady(w: World, ts: seq<Turn>, x: Id)
    requires Good(w) && TurnsOk(w, ts) && ts != [] && x in w.entities && AtHome(w, x)
    ensures var front, t := ts[..|ts| - 1], ts[|ts| - 1];
            && TurnsOk(w, front) && Good(AfterAll(w, front)) && TurnOk(AfterAll(w, front), t)
            && AfterAll(w, ts) == After(AfterAll(w, front), t)
            && x in AfterAll(w, front).entities && AtHome(AfterAll(w, front), x)
            && AfterAll(w, front).entityZone[x] == w.entityZone[x]
  {
    FrontTurns(w, ts);
    TurnsScene(w, ts[..|ts| - 1]);
    TurnsGood(w, ts[..|ts| - 1]);
    HomeStays(w, AfterAll(w, ts[..|ts| - 1]), x);
  }

  lemma TurnProgress(w: World, t: Turn, x: Id)
    requires Good(w) && TurnOk(w, t) && x in w.entities && AtHome(w, x)
    requires w.entityZone[x] == t.z || UpToDate(w, x)
    ensures UpToDate(After(w, t), x)
  {
    if w.entityZone[x] == t.z { OwnTurn(w, t, x); } else { OtherTurn(w, t, x); }
  }

  lemma VisitedBefore(ts: seq<Turn>, z: ZoneId)
    requires Visited(ts, z) && ts[|ts| - 1].z != z
    ensures Visited(ts[..|ts| - 1], z)
  {
    var i :| 0 <= i < |ts| && ts[i].z == z;
    assert ts[..|ts| - 1][i].z == z;
  }

  /** A tick takes every zone in turn, in map order.  After its turns every client that no other zone
      lists, whatever its zone, has been told exactly the live entities of its zone within the radius. */
  lemma TickUpdatesEveryClient(ops: seq<Op>, ts: seq<Turn>, x: Id)
    requires AllEnabled(Start(), ops) && AllDisciplined(Start(), ops)
    requires var w := Run(Start(), ops);
             TurnsOk(w, ts) && (forall z :: z in w.zones ==> Visited(ts, z)) && x in w.entities && AtHome(w, x)
    ensures UpToDate(AfterAll(Run(Start(), ops), ts), x)
  {
    var w := Run(Start(), ops);
    DisciplinedRun(ops);
    assert LiveOk(w, x);
    TurnsProgress(w, ts, x);
  }

  // ---------- a zone that still lists an entity of another ----------

  /** The live entities of zone `z` within the radius of the entry it keeps for `x`. */
  ghost function NearEntry(w: World, z: ZoneId, x: Id): set<Id>
    requires z in w.zones && x in w.zones[z].entities
  {
    set y | y in w.entities && NearPoint(w, z, w.Obj(w.zones[z].entities[x]).position, y)
  }

  lemma EntrySurroundings(w: World, z: ZoneId, x: Id)
    requires ZonesOk(w) && Agree(w) && z in w.zones && Settled(w, z) && x in w.zones[z].entities
    ensures Reals(w.Surroundings(z, x)) == NearEntry(w, z, x)
  {
    var c := w.Obj(w.zones[z].entities[x]).position;
    forall y ensures y in w.Surroundings(z, x) && IsReal(y) <==> NearPoint(w, z, c, y) {
      if y in w.entities { assert LiveOk(w, y); }
      if IsReal(y) { RangeIsNear(w, z, c, y); }
    }
  }

  lemma NearEntrySame(w: World, w': World, z: ZoneId, x: Id)
    requires z in w.zones && x in w.zones[z].entities && SamePlaces(w, w') && w'.objs == w.objs
    ensures NearEntry(w', z, x) == NearEntry(w, z, x)
  {
    var c := w.Obj(w.zones[z].entities[x]).position;
    assert forall y :: NearPoint(w', z, c, y) == NearPoint(w, z, c, y);
  }

  /** Between `w` and `w'` client `x` has been told exactly who is near the entry zone `z` keeps for it. */
  ghost predicate TellsEntry(w: World, w': World, z: ZoneId, x: Id)
    requires z in w.zones && x in w.zones[z].entities
  {
    ClientOk(w', x) && Reals(w'.entityAOI[x].visible) == NearEntry(w, z, x) && SamePlaces(w, w') && w'.objs == w.objs
  }

  /** What `x` has been told after the turn of a zone that lists it. */
  lemma ListingTurnTells(w: World, t: Turn, x: Id)
    requires Good(w) && TurnOk(w, t) && x in w.entities && t.z in w.zones && x in w.zones[t.z].entities
    ensures TellsEntry(w, After(w, t), t.z, x)
  {
    ListingDetected(w, t, x);
    DetectedTells(w, t, x);
    TellsFrom(w, Detected(w, t), After(w, t), t.z, x);
  }

  lemma DetectedTells(w: World, t: Turn, x: Id)
    requires Good(w) && TurnOk(w, t) && x in Detected(w, t).entities
    requires t.z in Detected(w, t).zones && x in Detected(w, t).zones[t.z].entities
    ensures TellsEntry(Detected(w, t), After(w, t), t.z, x)
  {
    TurnGood(w, t);
    ListingPassTells(Detected(w, t), After(w, t), t.z, t.pass, t.order, x);
  }

  lemma TellsFrom(w: World, w1: World, w': World, z: ZoneId, x: Id)
    requires z in w.zones && x in w.zones[z].entities && SamePlaces(w, w1) && w1.objs == w.objs
    requires NearEntry(w1, z, x) == NearEntry(w, z, x) && TellsEntry(w1, w', z, x)
    ensures TellsEntry(w, w', z, x)
  {
  }

  lemma ListingDetected(w: World, t: Turn, x: Id)
    requires x in w.entities && t.z in w.zones && x in w.zones[t.z].entities
    ensures var w1 := Detected(w, t);
            && SamePlaces(w, w1) && w1.objs == w.objs && t.z in w1.zones && x in w1.zones[t.z].entities
            && NearEntry(w1, t.z, x) == NearEntry(w, t.z, x)
  {
    DetectsScene(w, t.z, t.detects, t.now, x);
    NearEntrySame(w, Detected(w, t), t.z, x);
  }

  lemma ListingPassTells(w: World, w': World, z: ZoneId, pass: seq<Op>, order: seq<Id>, x: Id)
    requires Good(w) && Good(w') && IsPass(w, z, pass, order) && w' == Run(w, pass) && x in w.entities && x in w.zones[z].entities
    ensures TellsEntry(w, w', z, x)
  {
    PassEnds(w, z, pass, order, x);
    assert Settled(w, z);
    EntrySurroundings(w, z, x);
    assert ClientOk(w', x);
  }

  /** The condition on clients is exact.  After the turn of another zone that still lists it, a client
      is up to date if and only if there is nothing to see, neither around it nor around the entry. */
  lemma ForeignTurnIff(w: World, t: Turn, x: Id)
    requires Good(w) && TurnOk(w, t) && x in w.entities && x in w.entityZone
    requires t.z in w.zones && x in w.zones[t.z].entities && t.z != w.entityZone[x]
    ensures UpToDate(After(w, t), x) <==> ShouldSee(w, w.entityZone[x], x) == {} && NearEntry(w, t.z, x) == {}
  {
    ListingTurnTells(w, t, x);
    SameToSee(w, After(w, t), w.entityZone[x], x);
    ApartSets(w, w.entityZone[x], t.z, x);
    ToldIff(After(w, t), w.entityZone[x], x);
  }

  lemma ApartSets(w: World, z: ZoneId, y: ZoneId, x: Id)
    requires x in w.entities && y in w.zones && x in w.zones[y].entities && y != z && x in w.entityZone && w.entityZone[x] == z
    ensures ShouldSee(w, z, x) * NearEntry(w, y, x) == {} && x !in NearEntry(w, y, x)
  {
  }

  lemma ToldIff(w: World, z: ZoneId, x: Id)
    requires x in w.entities && ClientOk(w, x)
    ensures SeesExactly(w, z, x) <==> Reals(w.entityAOI[x].visible) - {x} == ShouldSee(w, z, x)
  {
    var heard := w.log[w.joined[x]..];
    if forall a :: a in heard && a.event.observer == x ==> a.accepted { NothingMissed(heard, x); }
  }

  lemma TurnsMore(w: World, ts: seq<Turn>, t: Turn)
    requires TurnsOk(w, ts) && TurnOk(AfterAll(w, ts), t)
    ensures TurnsOk(w, ts + [t]) && AfterAll(w, ts + [t]) == After(AfterAll(w, ts), t)
    ensures Visited(ts + [t], t.z) && forall z :: Visited(ts, z) ==> Visited(ts + [t], z)
  {
    var more := ts + [t];
    assert more[..|ts|] == ts;
    forall i | 0 <= i < |more| ensures TurnOk(AfterAll(w, more[..i]), more[i]) {
      if i < |ts| { assert more[..i] == ts[..i]; }
    }
    assert more[|ts|].z == t.z;
    forall z | Visited(ts, z) ensures Visited(more, z) {
      var i :| 0 <= i < |ts| && ts[i].z == z;
      assert more[i].z == z;
    }
  }
}
