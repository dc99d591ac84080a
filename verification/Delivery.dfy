/** The way from the simulation to the consumer of its events: what the bounded channel takes in, when
    nothing is lost, and what a client that hears only delivered events holds. */
module Delivery {
  import opened Ids
  import opened Worlds
  import opened Invariants
  import opened Visibility
  import opened Clients

  /** Accepted events wait in the channel until they are taken, in order. */
  ghost predicate InOrder(w: World) {
    Accepted(w.log) == w.taken + w.channel
  }

  /** Entry `i` of the log was accepted if and only if, with `taken` events taken by then, fewer than
      4096 were waiting. */
  ghost predicate EntersIffRoom(log: seq<Attempt>, i: nat, taken: nat)
    requires i < |log|
  {
    log[i].accepted <==> |Accepted(log[..i])| - taken < 4096
  }

  /** The new entries of the log. */
  ghost predicate NewEnterIffRoom(w: World, w': World) {
    && |w.log| <= |w'.log| && w'.log[..|w.log|] == w.log
    && forall i :: |w.log| <= i < |w'.log| ==> EntersIffRoom(w'.log, i, |w.taken|)
  }

  lemma PublishEnters(w: World, w': World, ev: Event)
    requires InOrder(w) && w' == w.Publish(ev)
    ensures InOrder(w') && EntersIffRoom(w'.log, |w.log|, |w.taken|) && w'.taken == w.taken
  {
    assert w'.log[..|w.log|] == w.log;
    assert w.taken + (w.channel + [ev]) == (w.taken + w.channel) + [ev];
  }

  lemma {:induction false} PublishAllEnter(w: World, evs: seq<Event>)
    requires InOrder(w)
    ensures var w' := w.PublishAll(evs); InOrder(w') && w'.taken == w.taken && NewEnterIffRoom(w, w')
    decreases |evs|
  {
    if evs != [] {
      var w1 := w.PublishAll(evs[..|evs| - 1]);
      PublishAllEnter(w, evs[..|evs| - 1]);
      PublishEnters(w1, w1.Publish(evs[|evs| - 1]), evs[|evs| - 1]);
      EntersOn(w, w1, w1.Publish(evs[|evs| - 1]));
    }
  }

  lemma EntersOn(w: World, w1: World, w': World)
    requires NewEnterIffRoom(w, w1) && |w'.log| == |w1.log| + 1 && w'.log[..|w1.log|] == w1.log
    requires EntersIffRoom(w'.log, |w1.log|, |w.taken|)
    ensures NewEnterIffRoom(w, w')
  {
    assert w'.log[..|w.log|] == w'.log[..|w1.log|][..|w.log|];
    forall i | |w.log| <= i < |w1.log| ensures EntersIffRoom(w'.log, i, |w.taken|) {
      assert EntersIffRoom(w1.log, i, |w.taken|);
      assert w'.log[..i] == w'.log[..|w1.log|][..i] && w'.log[..|w1.log|][i] == w1.log[i];
    }
  }

  lemma EnqueueEnters(w: World, x: Id, p: Vec)
    requires InOrder(w)
    ensures var w' := EnqueueMove(w, x, p); InOrder(w') && w'.taken == w.taken && NewEnterIffRoom(w, w')
  {
    if x in w.entityZone && w.entityZone[x] in w.zones {
      PublishAllEnter(w, MoveEvents(w.SpaceOf(x), x, p, Sorted(w.GridOf(w.entityZone[x]).InRange(p, AOI_RADIUS))));
    }
  }

  lemma MoveEnters(w: World, x: Id, p: Vec)
    requires InOrder(w)
    ensures var w' := MoveEntity(w, x, p); InOrder(w') && w'.taken == w.taken && NewEnterIffRoom(w, w')
  {
    if x in w.entities {
      var e := w.entities[x];
      var w1 := w.(objs := w.objs[e := w.Obj(e).(position := p)]);
      var w2 := if x in w.entityZone then w1.WithGrid(w.entityZone[x], w.GridOf(w.entityZone[x]).Move(x, p)) else w1;
      EnqueueEnters(w2, x, p);
    }
  }

  lemma ObserveEnters(w: World, z: ZoneId, x: Id, spawns: seq<Id>, despawns: seq<Id>)
    requires InOrder(w)
    ensures var w' := Observe(w, z, x, spawns, despawns); InOrder(w') && w'.taken == w.taken && NewEnterIffRoom(w, w')
  {
    if z in w.zones && x in w.zones[z].entities {
      var space := w.Obj(w.zones[z].entities[x]).runtimeId;
      PublishAllEnter(w, DeltaEvents(w, space, x, w.Surroundings(z, x), spawns, despawns));
    }
  }

  /** The channel takes an event if and only if it has room: in every state and for every step, each
      new entry of the log was accepted exactly if fewer than 4096 accepted events were waiting. */
  lemma AcceptedIffRoom(w: World, op: Op)
    requires InOrder(w)
    ensures InOrder(Step(w, op)) && NewEnterIffRoom(w, Step(w, op))
    ensures !op.Take? ==> Step(w, op).taken == w.taken
    ensures op.Take? ==> Step(w, op).log == w.log && Step(w, op).taken == Accepted(w.log)[..|w.taken| + (if w.channel == [] then 0 else 1)]
  {
    if op.MoveTo? { MoveEnters(w, op.x, op.p); }
    else if op.ObserveOne? { ObserveEnters(w, op.z, op.x, op.spawns, op.despawns); }
    else if op.Take? { TakesOldest(w); }
    else { NoPublish(w, op); }
  }

  lemma TakesOldest(w: World)
    requires InOrder(w)
    ensures var w' := TakeEvent(w);
            InOrder(w') && w'.log == w.log && w'.taken == Accepted(w.log)[..|w.taken| + (if w.channel == [] then 0 else 1)]
  {
    if w.channel != [] { assert w.taken + w.channel == w.taken + [w.channel[0]] + w.channel[1..]; }
  }

  // ---------- when nothing is lost ----------

  ghost predicate AllAccepted(log: seq<Attempt>) {
    forall i :: 0 <= i < |log| ==> log[i].accepted
  }

  lemma {:induction false} AcceptedAll(log: seq<Attempt>)
    requires AllAccepted(log)
    ensures Accepted(log) == Events(log)
    decreases |log|
  {
    if log != [] { AcceptedAll(log[..|log| - 1]); }
  }

  /** Published and not yet taken. */
  ghost function Backlog(w: World): int {
    |w.log| - |w.taken|
  }

  /** At every moment of the run at most 4096 published events had not been taken. */
  ghost predicate NeverFull(w: World, ops: seq<Op>) {
    ops == [] || (NeverFull(w, ops[..|ops| - 1]) && Backlog(Run(w, ops)) <= 4096)
  }

  lemma {:induction false} AllFitIff(log: seq<Attempt>, from: nat, taken: nat)
    requires from <= |log| && AllAccepted(log[..from]) && from - taken <= 4096
    requires forall i :: from <= i < |log| ==> EntersIffRoom(log, i, taken)
    ensures AllAccepted(log) <==> |log| - taken <= 4096
    decreases |log|
  {
    if from < |log| {
      var front := log[..|log| - 1];
      assert front[..from] == log[..from];
      forall i | from <= i < |front| ensures EntersIffRoom(front, i, taken) {
        assert EntersIffRoom(log, i, taken);
        assert front[..i] == log[..i];
      }
      AllFitIff(front, from, taken);
      assert EntersIffRoom(log, |front|, taken);
      assert log[..|front|] == front;
      if AllAccepted(front) { AcceptedAll(front); }
      if AllAccepted(log) { assert forall i :: 0 <= i < |front| ==> front[i] == log[i]; }
    } else {
      assert log[..from] == log;
    }
  }

  lemma StepLosesIff(w: World, op: Op)
    requires InOrder(w) && AllAccepted(w.log) && Backlog(w) <= 4096
    ensures AllAccepted(Step(w, op).log) <==> Backlog(Step(w, op)) <= 4096
  {
    AcceptedIffRoom(w, op);
    AcceptedAll(w.log);
    if !op.Take? { AllFitIff(Step(w, op).log, |w.log|, |w.taken|); }
  }

  lemma {:induction false} RunInOrder(ops: seq<Op>)
    ensures InOrder(Run(Start(), ops))
    decreases |ops|
  {
    if ops != [] {
      RunInOrder(ops[..|ops| - 1]);
      AcceptedIffRoom(Run(Start(), ops[..|ops| - 1]), ops[|ops| - 1]);
    }
  }

  /** Over every run: no event was dropped if and only if the backlog never exceeded 4096. */
  lemma {:induction false} NothingDroppedIff(ops: seq<Op>)
    ensures AllAccepted(Run(Start(), ops).log) <==> NeverFull(Start(), ops)
    ensures AllAccepted(Run(Start(), ops).log) ==> Backlog(Run(Start(), ops)) <= 4096
    decreases |ops|
  {
    if ops != [] {
      var front, op := ops[..|ops| - 1], ops[|ops| - 1];
      var w := Run(Start(), front);
      NothingDroppedIff(front);
      RunInOrder(front);
      if AllAccepted(w.log) {
        StepLosesIff(w, op);
      } else {
        AcceptedIffRoom(w, op);
        DropStays(w.log, Step(w, op).log);
      }
    }
  }

  lemma DropStays(log: seq<Attempt>, log': seq<Attempt>)
    requires !AllAccepted(log) && |log| <= |log'| && log'[..|log|] == log
    ensures !AllAccepted(log')
  {
    var i :| 0 <= i < |log| && !log[i].accepted;
    assert log'[..|log|][i] == log[i];
  }

  // ---------- what the consumer has ----------

  function Takes(n: nat): seq<Op> {
    seq(n, _ => Take)
  }

  lemma {:induction false} TakesDeliver(w: World, n: nat)
    requires InOrder(w)
    ensures var w' := Run(w, Takes(n));
            && w'.taken == Accepted(w.log)[..if n <= |w.channel| then |w.taken| + n else |Accepted(w.log)|]
            && InOrder(w') && w'.log == w.log
    decreases n
  {
    if n > 0 {
      TakesDeliver(w, n - 1);
      assert Takes(n)[..n - 1] == Takes(n - 1);
      AcceptedIffRoom(Run(w, Takes(n - 1)), Take);
    }
  }

  /** End to end, with nothing assumed of single events: after any disciplined run and one visibility
      pass in which the backlog never exceeds 4096, once the consumer has taken what is waiting, a client
      that replays the events taken since it was added holds exactly what it should see. */
  lemma ConsumersSeeExactly(ops: seq<Op>, z: ZoneId, pass: seq<Op>, order: seq<Id>, x: Id, n: nat)
    requires AllEnabled(Start(), ops) && AllDisciplined(Start(), ops)
    requires IsPass(Run(Start(), ops), z, pass, order) && AllEnabled(Run(Start(), ops), pass)
    requires x in Run(Start(), ops).entities && x in Run(Start(), ops).entityZone && Run(Start(), ops).entityZone[x] == z
    requires NeverFull(Start(), ops + pass) && n >= |Run(Run(Start(), ops), pass).channel|
    ensures var w := Run(Run(Start(), ops), pass);
            var w' := Run(w, Takes(n));
            && x in w.entities && x in w.joined && w.joined[x] <= |w'.taken|
            && Replay(w'.taken[w.joined[x]..], x) == ShouldSee(w, z, x)
  {
    ClientsSeeExactly(ops, z, pass, order, x);
    RunBoth(Start(), ops, pass);
    AllTaken(ops + pass, n);
    HearsAll(Run(Run(Start(), ops), pass), Run(Run(Run(Start(), ops), pass), Takes(n)).taken, z, x);
  }

  /** Once what is waiting has been taken, the consumer has every event that was ever published. */
  lemma AllTaken(ops: seq<Op>, n: nat)
    requires NeverFull(Start(), ops) && n >= |Run(Start(), ops).channel|
    ensures Run(Run(Start(), ops), Takes(n)).taken == Events(Run(Start(), ops).log)
  {
    var w := Run(Start(), ops);
    NothingDroppedIff(ops);
    RunInOrder(ops);
    TakesDeliver(w, n);
    AcceptedAll(w.log);
  }

  lemma HearsAll(w: World, taken: seq<Event>, z: ZoneId, x: Id)
    requires SeesExactly(w, z, x) && taken == Events(w.log)
    ensures w.joined[x] <= |taken| && Replay(taken[w.joined[x]..], x) == ShouldSee(w, z, x)
  {
    EventsTail(w.log, w.joined[x]);
  }

  lemma EventsTail(log: seq<Attempt>, j: nat)
    requires j <= |log|
    ensures Events(log)[j..] == Events(log[j..])
  {
  }

  lemma {:induction false} RunBoth(w: World, ops: seq<Op>, more: seq<Op>)
    ensures Run(w, ops + more) == Run(Run(w, ops), more)
    decreases |more|
  {
    if more == [] {
      assert ops + more == ops;
    } else {
      RunBoth(w, ops, more[..|more| - 1]);
      assert (ops + more)[..|ops + more| - 1] == ops + more[..|more| - 1];
    }
  }
}
