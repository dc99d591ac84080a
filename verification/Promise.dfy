/** What a whole tick promises, whatever the orders in which it visits its maps. */
module Promises {
  import opened Ids
  import opened Objects
  import opened Worlds
  import opened Invariants
  import opened Visibility
  import opened Clients
  import opened Sessions
  import opened Ticks
  import Handover

  /** Every zone of `done` has had its turn. */
  ghost predicate TurnsSoFar(w: World, ts: seq<Turn>, done: set<ZoneId>) {
    TurnsOk(w, ts) && forall z :: z in done ==> Visited(ts, z)
  }

  /** `w'` is `w` after both sweeps looked at every local ghost and every session, each by its own clock. */
  ghost predicate BothSwept(w: World, ghostOrder: seq<Id>, sessionOrder: seq<Id>, ghostNow: int, now: int, w': World) {
    var mid := Run(w, ExpireOps(ghostOrder, ghostNow));
    && Visits(ghostOrder, w.ghosts.Keys) && Visits(sessionOrder, mid.sessions.Keys)
    && w' == Run(mid, SweepOps(sessionOrder, now))
  }

  /** The inputs of a tick: commands, position packets, and where the lifecycles want to be. */
  ghost predicate TookInputs(w: World, cmdOps: seq<Op>, packetOps: seq<Op>, moves: map<Id, Vec>, asked: seq<Id>, before: World) {
    var fed := Run(Run(w, cmdOps), packetOps);
    && (forall op :: op in packetOps ==> op.MoveTo?)
    && Visits(asked, fed.entities.Keys) && before == Simulated(fed, moves, asked)
  }

  lemma MovesAnywhere(w: World, ops: seq<Op>)
    requires forall op :: op in ops ==> op.MoveTo? || op.ExpireOne? || op.SweepOne?
    ensures AllEnabled(w, ops)
  {
  }

  lemma {:induction false} MovesGood(w: World, ops: seq<Op>)
    requires Good(w) && forall op :: op in ops ==> op.MoveTo? || op.ExpireOne?
    ensures Good(Run(w, ops))
  {
    MovesAnywhere(w, ops);
    forall i | 0 <= i < |ops| ensures !ops[i].Add? && !ops[i].SweepOne? { assert ops[i] in ops; }
    RunGood(w, ops);
  }

  /** Additions of new objects under new real ids, and removals. */
  ghost predicate Orderly(ops: seq<Op>, known: set<Entity>, live: set<Id>) {
    forall i :: 0 <= i < |ops| ==>
      ops[i].Remove? || (&& ops[i].Add? && IsReal(ops[i].v.id) && ops[i].e !in known && ops[i].v.id !in live
                         && forall j :: 0 <= j < i && ops[j].Add? ==> ops[j].e != ops[i].e && ops[j].v.id != ops[i].v.id)
  }

  ghost predicate Within(w: World, v: World, ops: seq<Op>) {
    && (forall e :: e in v.objs ==> e in w.objs || exists j :: 0 <= j < |ops| && ops[j].Add? && ops[j].e == e)
    && (forall x :: x in v.entities ==> x in w.entities || exists j :: 0 <= j < |ops| && ops[j].Add? && ops[j].v.id == x)
  }

  lemma WithinMore(w: World, v: World, ops: seq<Op>, op: Op)
    requires Within(w, v, ops) && (op.Add? || op.Remove?)
    ensures Within(w, Step(v, op), ops + [op])
  {
    var more := ops + [op];
    assert forall j :: 0 <= j < |ops| ==> more[j] == ops[j];
    assert more[|ops|] == op;
    var v' := Step(v, op);
    forall e | e in v'.objs && e !in w.objs ensures exists j :: 0 <= j < |more| && more[j].Add? && more[j].e == e {
      if e in v.objs {
        var j :| 0 <= j < |ops| && ops[j].Add? && ops[j].e == e;
        assert more[j].Add? && more[j].e == e;
      }
    }
    forall x | x in v'.entities && x !in w.entities ensures exists j :: 0 <= j < |more| && more[j].Add? && more[j].v.id == x {
      if x in v.entities {
        var j :| 0 <= j < |ops| && ops[j].Add? && ops[j].v.id == x;
        assert more[j].Add? && more[j].v.id == x;
      }
    }
  }

  lemma {:induction false} OrderlyRun(w: World, ops: seq<Op>, k: nat)
    requires Orderly(ops, w.objs.Keys, w.entities.Keys) && k <= |ops|
    ensures Within(w, Run(w, ops[..k]), ops[..k])
    decreases k
  {
    if k == 0 {
      assert ops[..0] == [];
    } else {
      OrderlyRun(w, ops, k - 1);
      assert ops[..k] == ops[..k - 1] + [ops[k - 1]];
      RunMore(w, ops[..k - 1], ops[k - 1]);
      WithinMore(w, Run(w, ops[..k - 1]), ops[..k - 1], ops[k - 1]);
    }
  }

  lemma WithinAllows(w: World, v: World, ops: seq<Op>, k: nat)
    requires Orderly(ops, w.objs.Keys, w.entities.Keys) && k < |ops| && Within(w, v, ops[..k])
    ensures Enabled(v, ops[k]) && Disciplined(v, ops[k])
  {
    assert forall j :: 0 <= j < k ==> ops[..k][j] == ops[j];
  }

  /** Orderly commands are enabled and disciplined, one after the other. */
  lemma OrderlyIsDisciplined(w: World, ops: seq<Op>)
    requires Orderly(ops, w.objs.Keys, w.entities.Keys)
    ensures AllEnabled(w, ops) && AllDisciplined(w, ops)
  {
    forall k | 0 <= k < |ops| ensures Enabled(Run(w, ops[..k]), ops[k]) && Disciplined(Run(w, ops[..k]), ops[k]) {
      OrderlyRun(w, ops, k);
      WithinAllows(w, Run(w, ops[..k]), ops, k);
    }
  }

  /** Disciplined commands, any packets and any simulation lead to a good state. */
  lemma InputsGood(w: World, cmdOps: seq<Op>, packetOps: seq<Op>, moves: map<Id, Vec>, asked: seq<Id>, before: World)
    requires Good(w) && AllEnabled(w, cmdOps) && AllDisciplined(w, cmdOps) && TookInputs(w, cmdOps, packetOps, moves, asked, before)
    ensures Good(before)
  {
    DisciplinedRunFrom(w, cmdOps);
    MovesGood(Run(w, cmdOps), packetOps);
    var fed := Run(Run(w, cmdOps), packetOps);
    SimulateIsRun(fed, moves, asked);
    MovesGood(fed, SimulateOps(fed, moves, asked));
  }

  /** After the zone turns every live client that no other zone lists is up to date. */
  ghost predicate AllUpToDate(before: World, after: World) {
    forall x :: x in before.entities && AtHome(before, x) ==> UpToDate(after, x)
  }

  lemma TurnsUpdateAll(before: World, ts: seq<Turn>)
    requires Good(before) && TurnsSoFar(before, ts, before.zones.Keys)
    ensures Good(AfterAll(before, ts)) && AllUpToDate(before, AfterAll(before, ts))
  {
    TurnsGood(before, ts);
    forall x | x in before.entities && AtHome(before, x) ensures UpToDate(AfterAll(before, ts), x) {
      assert LiveOk(before, x);
      TurnsProgress(before, ts, x);
    }
  }

  // ---------- the two sweeps ----------

  /** Every entity that is due lives in a zone whose own grid is indexed. */
  ghost predicate DueIndexed(w: World, now: int) {
    forall x :: Due(w, x, now) && x in w.entityZone ==> OwnIndex(w, w.entityZone[x])
  }

  lemma ExpireOpsAre(order: seq<Id>, now: int)
    ensures forall op :: op in ExpireOps(order, now) ==> op.ExpireOne?
    ensures forall op :: op in SweepOps(order, now) ==> op.SweepOne?
  {
  }

  lemma {:induction false} SweepRunIndex(w: World, order: seq<Id>, now: int, k: nat, z: ZoneId)
    requires k <= |order|
    ensures OwnIndex(Run(w, SweepOps(order, now)[..k]), z) <==> OwnIndex(w, z)
    decreases k
  {
    var ops := SweepOps(order, now);
    if k == 0 {
      assert ops[..0] == [];
    } else {
      SweepRunIndex(w, order, now, k - 1, z);
      assert ops[..k][..k - 1] == ops[..k - 1];
      Handover.SweepKeepsIndex(Run(w, ops[..k - 1]), order[k - 1], now, z);
    }
  }

  lemma SweptDue(w: World, v: World, gone: set<Id>, x: Id, now: int)
    requires Swept(w, v, gone) && Due(v, x, now) && x in v.entityZone
    ensures Due(w, x, now) && x in w.entityZone && v.entityZone[x] == w.entityZone[x]
  {
  }

  lemma SweepsDisciplined(w: World, order: seq<Id>, now: int)
    requires Visits(order, w.sessions.Keys) && DueIndexed(w, now)
    ensures AllDisciplined(w, SweepOps(order, now))
  {
    var ops := SweepOps(order, now);
    forall i | 0 <= i < |ops| ensures Disciplined(Run(w, ops[..i]), ops[i]) {
      var v, x := Run(w, ops[..i]), order[i];
      SweepProgress(w, order, now, i);
      if Due(v, x, now) && x in v.entityZone {
        SweptDue(w, v, DueOf(w, order[..i], now), x, now);
        SweepRunIndex(w, order, now, i, w.entityZone[x]);
      }
    }
  }

  lemma SweepsKeep(w: World, ghostOrder: seq<Id>, sessionOrder: seq<Id>, ghostNow: int, now: int, w': World)
    requires Good(w) && BothSwept(w, ghostOrder, sessionOrder, ghostNow, now, w')
    ensures Inv(w')
    ensures DueIndexed(Run(w, ExpireOps(ghostOrder, ghostNow)), now) ==> Good(w')
  {
    var mid, ops := Run(w, ExpireOps(ghostOrder, ghostNow)), SweepOps(sessionOrder, now);
    ExpireOpsAre(ghostOrder, ghostNow);
    ExpireOpsAre(sessionOrder, now);
    MovesGood(w, ExpireOps(ghostOrder, ghostNow));
    MovesAnywhere(mid, ops);
    RunKeeps(mid, ops);
    if DueIndexed(mid, now) {
      SweepsDisciplined(mid, sessionOrder, now);
      DisciplinedRunFrom(mid, ops);
    }
  }

  // ---------- what the sweeps leave of the promise ----------

  /** The same entities are live, in the same zones, with the same values and sessions. */
  ghost predicate SameCast(w: World, w': World) {
    && w'.entities == w.entities && w'.entityZone == w.entityZone && w'.objs == w.objs && w'.sessions == w.sessions
    && w'.aoiIndex == w.aoiIndex
  }

  lemma {:induction false} QuietRun(w: World, ops: seq<Op>)
    requires forall op :: op in ops ==> op.DetectOne? || op.ObserveOne? || op.ExpireOne?
    ensures SameCast(w, Run(w, ops))
    decreases |ops|
  {
    if ops != [] {
      var front := ops[..|ops| - 1];
      assert forall op :: op in front ==> op in ops;
      QuietRun(w, front);
      assert ops[|ops| - 1] in ops;
      QuietStep(Run(w, front), ops[|ops| - 1]);
    }
  }

  lemma QuietStep(w: World, op: Op)
    requires op.DetectOne? || op.ObserveOne? || op.ExpireOne?
    ensures SameCast(w, Step(w, op))
  {
  }

  lemma {:induction false} ExpiresQuietly(w: World, order: seq<Id>, now: int)
    ensures var w' := Run(w, ExpireOps(order, now)); SameCast(w, w') && w'.log == w.log && w'.joined == w.joined
    decreases |order|
  {
    if order != [] {
      var n := |order| - 1;
      ExpiresQuietly(w, order[..n], now);
      assert ExpireOps(order, now)[..n] == ExpireOps(order[..n], now);
    }
  }

  lemma {:induction false} SweepsQuietly(w: World, order: seq<Id>, now: int)
    ensures var w' := Run(w, SweepOps(order, now)); w'.objs == w.objs && w'.log == w.log && w'.joined == w.joined
    decreases |order|
  {
    if order != [] {
      var n := |order| - 1;
      SweepsQuietly(w, order[..n], now);
      assert SweepOps(order, now)[..n] == SweepOps(order[..n], now);
    }
  }

  lemma TurnQuietly(w: World, t: Turn)
    requires TurnOk(w, t)
    ensures SameCast(w, After(w, t))
  {
    QuietRun(w, DetectOps(t.z, t.detects, t.now));
    QuietRun(Detected(w, t), t.pass);
  }

  lemma {:induction false} TurnsQuietly(w: World, ts: seq<Turn>)
    requires TurnsOk(w, ts)
    ensures SameCast(w, AfterAll(w, ts))
    decreases |ts|
  {
    if ts != [] {
      FrontTurns(w, ts);
      TurnsQuietly(w, ts[..|ts| - 1]);
      TurnQuietly(AfterAll(w, ts[..|ts| - 1]), ts[|ts| - 1]);
    }
  }

  /** Taking `gone` away without a word leaves a client up to date if and only if it saw none of them. */
  lemma TakenAwayIff(w: World, w': World, gone: set<Id>, x: Id)
    requires UpToDate(w, x) && x !in gone && w'.entities == w.entities - gone && w'.entityZone == w.entityZone - gone
    requires w'.objs == w.objs && w'.log == w.log && w'.joined == w.joined
    ensures UpToDate(w', x) <==> ShouldSee(w, w.entityZone[x], x) !! gone
  {
    var z, heard := w.entityZone[x], w.log[w.joined[x]..];
    LessToSee(w, w', gone, z, x);
    if forall a :: a in heard && a.event.observer == x ==> a.accepted { NothingMissed(heard, x); }
  }

  lemma LessToSee(w: World, w': World, gone: set<Id>, z: ZoneId, x: Id)
    requires x in w.entities && x !in gone && w'.entities == w.entities - gone && w'.entityZone == w.entityZone - gone && w'.objs == w.objs
    ensures ShouldSee(w', z, x) == ShouldSee(w, z, x) - gone
  {
    assert forall y :: y in w'.entities ==> Near(w', z, x, y) == Near(w, z, x, y);
  }

  /** After the whole tick: a client that no other zone lists and that is not swept itself is up to date
      if and only if the sweep took nothing it should have seen. */
  ghost predicate ToldUnlessSwept(before: World, now: int, w': World) {
    forall x :: x in before.entities && AtHome(before, x) && !Due(before, x, now) ==>
      (UpToDate(w', x) <==> forall y :: y in ShouldSee(before, before.entityZone[x], x) ==> !Due(before, y, now))
  }

  lemma SweepsTell(before: World, after: World, ghostOrder: seq<Id>, sessionOrder: seq<Id>, ghostNow: int, now: int, w': World)
    requires SameCast(before, after) && AllUpToDate(before, after) && BothSwept(after, ghostOrder, sessionOrder, ghostNow, now, w')
    ensures ToldUnlessSwept(before, now, w')
  {
    var mid := Run(after, ExpireOps(ghostOrder, ghostNow));
    ExpiresQuietly(after, ghostOrder, ghostNow);
    SweepsQuietly(mid, sessionOrder, now);
    var gone := SweptIds(mid, sessionOrder, now);
    forall x | x in before.entities && AtHome(before, x) && !Due(before, x, now)
      ensures UpToDate(w', x) <==> forall y :: y in ShouldSee(before, before.entityZone[x], x) ==> !Due(before, y, now)
    {
      SameToSee(before, after, before.entityZone[x], x);
      TakenAwayIff(after, w', gone, x);
    }
  }

  /** The ids the sweep takes are those whose sessions are due. */
  lemma SweptIds(w: World, order: seq<Id>, now: int) returns (gone: set<Id>)
    requires Visits(order, w.sessions.Keys)
    ensures Swept(w, Run(w, SweepOps(order, now)), gone) && forall x :: x in gone <==> Due(w, x, now)
  {
    SweepProgress(w, order, now, |order|);
    assert SweepOps(order, now)[..|order|] == SweepOps(order, now) && order[..|order|] == order;
    gone := DueOf(w, order, now);
  }

  lemma SameDue(w: World, w': World, now: int)
    requires SameCast(w, w') && DueIndexed(w, now)
    ensures DueIndexed(w', now)
  {
    forall x | Due(w', x, now) && x in w'.entityZone ensures OwnIndex(w', w'.entityZone[x]) {
      assert Due(w, x, now) && OwnIndex(w, w.entityZone[x]);
    }
  }

  lemma SweepsAfterTurns(before: World, after: World, ghostOrder: seq<Id>, sessionOrder: seq<Id>, ghostNow: int, now: int, w': World)
    requires Good(after) && SameCast(before, after) && BothSwept(after, ghostOrder, sessionOrder, ghostNow, now, w')
    ensures Inv(w') && (DueIndexed(before, now) ==> Good(w'))
  {
    SweepsKeep(after, ghostOrder, sessionOrder, ghostNow, now, w');
    if DueIndexed(before, now) {
      ExpiresQuietly(after, ghostOrder, ghostNow);
      SameDue(before, Run(after, ExpireOps(ghostOrder, ghostNow)), now);
    }
  }

  // ---------- the promise ----------

  /** A tick of a good server whose commands are enabled and disciplined: after its turns every live
      client that no other zone lists has been told exactly what it should see, and after its sweeps
      still has if nothing it saw was swept; the server is in order afterwards, and good again, ready
      for the next tick, if every entity the sweep takes lived in an indexed zone. */
  lemma TickKeepsItsPromise(w: World, cmdOps: seq<Op>, packetOps: seq<Op>, moves: map<Id, Vec>, asked: seq<Id>, before: World,
                            ts: seq<Turn>, ghostOrder: seq<Id>, sessionOrder: seq<Id>, ghostNow: int, now: int, w': World)
    requires Good(w) && AllEnabled(w, cmdOps) && AllDisciplined(w, cmdOps)
    requires TookInputs(w, cmdOps, packetOps, moves, asked, before) && TurnsSoFar(before, ts, before.zones.Keys)
    requires BothSwept(AfterAll(before, ts), ghostOrder, sessionOrder, ghostNow, now, w')
    ensures AllUpToDate(before, AfterAll(before, ts)) && ToldUnlessSwept(before, now, w') && Inv(w')
    ensures DueIndexed(before, now) ==> Good(w')
  {
    InputsGood(w, cmdOps, packetOps, moves, asked, before);
    TurnsUpdateAll(before, ts);
    TurnsQuietly(before, ts);
    SweepsAfterTurns(before, AfterAll(before, ts), ghostOrder, sessionOrder, ghostNow, now, w');
    SweepsTell(before, AfterAll(before, ts), ghostOrder, sessionOrder, ghostNow, now, w');
  }

  /** With no session due, every client that no other zone lists is up to date after the whole tick. */
  lemma NoneDue(before: World, now: int, w': World)
    requires ToldUnlessSwept(before, now, w') && forall x :: !Due(before, x, now)
    ensures AllUpToDate(before, w')
  {
  }

  /** Additions, removals and moves leave the sessions alone. */
  lemma {:induction false} InputsKeepSessions(w: World, ops: seq<Op>)
    requires forall op :: op in ops ==> op.Add? || op.Remove? || op.MoveTo?
    ensures Run(w, ops).sessions == w.sessions
    decreases |ops|
  {
    if ops != [] {
      var front := ops[..|ops| - 1];
      assert forall op :: op in front ==> op in ops;
      InputsKeepSessions(w, front);
      assert ops[|ops| - 1] in ops;
      OtherStepsKeepSessions(Run(w, front), ops[|ops| - 1]);
    }
  }

  lemma TookInputsSessions(w: World, cmdOps: seq<Op>, packetOps: seq<Op>, moves: map<Id, Vec>, asked: seq<Id>, before: World)
    requires TookInputs(w, cmdOps, packetOps, moves, asked, before) && forall op :: op in cmdOps ==> op.Add? || op.Remove?
    ensures before.sessions == w.sessions
  {
    var fed := Run(Run(w, cmdOps), packetOps);
    InputsKeepSessions(w, cmdOps);
    InputsKeepSessions(Run(w, cmdOps), packetOps);
    SimulateIsRun(fed, moves, asked);
    InputsKeepSessions(fed, SimulateOps(fed, moves, asked));
  }
}
