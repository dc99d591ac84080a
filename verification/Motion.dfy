/** Which position a client holds for each entity it sees: over every disciplined run, and when it is
    the right one. */
module Motion {
  import opened Ids
  import opened Objects
  import opened Worlds
  import opened Invariants
  import opened Visibility
  import opened Clients
  import opened Coordinates
  import opened Replication
  import opened History

  // ---------- replaying positions ----------

  /** A Spawn gives a position, a Move changes it for an entity the client holds, a Despawn ends it. */
  function HearAt(m: map<Id, Vec>, ev: Event, x: Id): map<Id, Vec> {
    if ev.observer != x then m
    else match ev.kind
      case Spawn => m[ev.subject := ev.position]
      case Despawn => m - {ev.subject}
      case Moved => if ev.subject in m then m[ev.subject := ev.position] else m
  }

  function ReplayAt(evs: seq<Event>, x: Id): map<Id, Vec> {
    if evs == [] then map[] else HearAt(ReplayAt(evs[..|evs| - 1], x), evs[|evs| - 1], x)
  }

  lemma HeardOneMore(evs: seq<Event>, more: seq<Event>, x: Id)
    requires more != []
    ensures ReplayAt(evs + more, x) == HearAt(ReplayAt(evs + more[..|more| - 1], x), more[|more| - 1], x)
  {
    assert (evs + more)[..|evs + more| - 1] == evs + more[..|more| - 1];
  }

  /** A client has a position for exactly the ids it holds. */
  lemma {:induction false} HeldHavePositions(evs: seq<Event>, x: Id)
    ensures ReplayAt(evs, x).Keys == Replay(evs, x)
    decreases |evs|
  {
    if evs != [] { HeldHavePositions(evs[..|evs| - 1], x); }
  }

  lemma {:induction false} HearOthers(evs: seq<Event>, more: seq<Event>, x: Id)
    requires forall i :: 0 <= i < |more| ==> more[i].observer != x
    ensures ReplayAt(evs + more, x) == ReplayAt(evs, x)
    decreases |more|
  {
    if more == [] {
      assert evs + more == evs;
    } else {
      HearOthers(evs, more[..|more| - 1], x);
      HeardOneMore(evs, more, x);
    }
  }

  lemma {:induction false} HearMoves(evs: seq<Event>, more: seq<Event>, s: Id, p: Vec, x: Id)
    requires forall i :: 0 <= i < |more| ==> more[i].kind.Moved? && more[i].subject == s && more[i].position == p
    ensures ReplayAt(evs + more, x)
         == if x in ObserversOf(more) && s in ReplayAt(evs, x) then ReplayAt(evs, x)[s := p] else ReplayAt(evs, x)
    decreases |more|
  {
    if more == [] {
      assert evs + more == evs;
    } else {
      var front := more[..|more| - 1];
      HearMoves(evs, front, s, p, x);
      HeardOneMore(evs, more, x);
      assert ObserversOf(more) == ObserversOf(front) + [more[|more| - 1].observer];
    }
  }

  lemma {:induction false} HearSpawns(w: World, evs: seq<Event>, more: seq<Event>, space: string, x: Id, y: Id)
    requires SpawnsOf(w, more, space, x)
    ensures var m, m' := ReplayAt(evs, x), ReplayAt(evs + more, x);
            && (y in m' <==> y in m || y in SubjectsOf(more)) && (y in SubjectsOf(more) ==> y in w.entities)
            && (y in m' ==> m'[y] == if y in SubjectsOf(more) then PositionOf(w, y) else m[y])
    decreases |more|
  {
    if more == [] {
      assert evs + more == evs;
    } else {
      var front := more[..|more| - 1];
      HearSpawns(w, evs, front, space, x, y);
      HeardOneMore(evs, more, x);
      assert SubjectsOf(more) == SubjectsOf(front) + [more[|more| - 1].subject];
    }
  }

  lemma {:induction false} HearDespawns(evs: seq<Event>, more: seq<Event>, space: string, x: Id, y: Id)
    requires DespawnsOf(more, space, x)
    ensures var m, m' := ReplayAt(evs, x), ReplayAt(evs + more, x);
            (y in m' <==> y in m && y !in SubjectsOf(more)) && (y in m' ==> m'[y] == m[y])
    decreases |more|
  {
    if more == [] {
      assert evs + more == evs;
    } else {
      var front := more[..|more| - 1];
      HearDespawns(evs, front, space, x, y);
      HeardOneMore(evs, more, x);
      assert SubjectsOf(more) == SubjectsOf(front) + [more[|more| - 1].subject];
    }
  }

  // ---------- what a client holds, step by step ----------

  /** The positions client `x` holds: what was published to it since it was added, replayed. */
  ghost function Held(w: World, x: Id): map<Id, Vec> {
    if x in w.joined && w.joined[x] <= |w.log| then ReplayAt(Events(w.log[w.joined[x]..]), x) else map[]
  }

  /** The log has grown, and `x` has been there all along. */
  ghost predicate Later(w: World, w': World, x: Id) {
    && x in w.joined && w.joined[x] <= |w.log| && x in w'.joined && w'.joined[x] == w.joined[x]
    && |w.log| <= |w'.log| && w'.log[..|w.log|] == w.log
  }

  lemma HeldGrows(w: World, w': World, x: Id)
    requires Later(w, w', x)
    ensures Held(w', x) == ReplayAt(Events(w.log[w.joined[x]..]) + Published(w, w'), x)
  {
    var more := Published(w, w');
    assert forall i :: 0 <= i < |more| ==> w'.log[|w.log| + i].event == more[i];
    EventsAppend(w.log, w'.log, more, w.joined[x]);
  }

  /** Who holds an id sees it, itself apart. */
  lemma HeldIsVisible(w: World, x: Id)
    requires ClientOk(w, x)
    ensures Held(w, x).Keys == Reals(w.Visible(x)) - {x}
  {
    HeldHavePositions(Events(w.log[w.joined[x]..]), x);
  }

  /** A move of `s` to `p` is published to `x`: another live entity of the zone, at most 300 from `p`. */
  predicate Reached(w: World, s: Id, p: Vec, x: Id)
    requires s in w.entityZone
  {
    x != s && x in w.entities && x in w.entityZone && w.entityZone[x] == w.entityZone[s] && Within300(PositionOf(w, x), p)
  }

  /** The entity `s` moves to `p`: its position changes for those who hold it and are told. */
  lemma MoveHeld(w: World, s: Id, p: Vec, x: Id)
    requires Inv(w) && AllSettled(w) && s in w.entities && s in w.entityZone && x in w.entities && ClientOk(w, x)
    ensures var w' := MoveEntity(w, s, p);
            Held(w', x) == if Reached(w, s, p, x) && s in Held(w, x) then Held(w, x)[s := p] else Held(w, x)
  {
    assert LiveOk(w, x) && LiveOk(w, s);
    MoveTellsExactly(w, s, p);
    MoveToldIff(w, s, p, x);
    MovedScene(w, s, p, x);
    MovesHeard(w, MoveEntity(w, s, p), s, p, x);
  }

  lemma MovesHeard(w: World, w': World, s: Id, p: Vec, x: Id)
    requires Later(w, w', x) && exists space, near :: TellsMove(Published(w, w'), space, s, p, near)
    ensures Held(w', x) == if x in ObserversOf(Published(w, w')) && s in Held(w, x) then Held(w, x)[s := p] else Held(w, x)
  {
    HeldGrows(w, w', x);
    HearMoves(Events(w.log[w.joined[x]..]), Published(w, w'), s, p, x);
  }

  /** An observation gives its observer the current position of whoever appeared, takes back whoever
      disappeared, and leaves the rest alone. */
  lemma ObserveHeld(w: World, z: ZoneId, x: Id, spawns: seq<Id>, despawns: seq<Id>, y: Id)
    requires z in w.zones && x in w.zones[z].entities && Enabled(w, ObserveOne(z, x, spawns, despawns)) && ClientOk(w, x)
    ensures var m, m', current := Held(w, x), Held(Observe(w, z, x, spawns, despawns), x), w.Surroundings(z, x);
            && (y in m' <==> (y in m || y in Appeared(w, x, current)) && !(y in w.Visible(x) && y !in current))
            && (y in m' ==> m'[y] == if y in Appeared(w, x, current) then PositionOf(w, y) else m[y])
  {
    var w', space, current := Observe(w, z, x, spawns, despawns), w.Obj(w.zones[z].entities[x]).runtimeId, w.Surroundings(z, x);
    ObserveTellsExactly(w, z, x, spawns, despawns);
    ObserveLog(w, z, x, spawns, despawns);
    HeldGrows(w, w', x);
    var k :| TellsSight(w, Published(w, w'), space, x, current, k);
    HearSight(w, Events(w.log[w.joined[x]..]), Published(w, w'), space, x, current, k, y);
  }

  lemma HearSight(w: World, evs: seq<Event>, more: seq<Event>, space: string, x: Id, current: set<Id>, k: nat, y: Id)
    requires TellsSight(w, more, space, x, current, k)
    ensures var m, m' := ReplayAt(evs, x), ReplayAt(evs + more, x);
            && (y in m' <==> (y in m || y in Appeared(w, x, current)) && !(y in w.Visible(x) && y !in current))
            && (y in m' ==> m'[y] == if y in Appeared(w, x, current) then PositionOf(w, y) else m[y])
  {
    HearSpawns(w, evs, more[..k], space, x, y);
    HearDespawns(evs + more[..k], more[k..], space, x, y);
    HeardInTwo(evs, more, k, x);
  }

  lemma HeardInTwo(evs: seq<Event>, more: seq<Event>, k: nat, x: Id)
    requires k <= |more|
    ensures ReplayAt(evs + more, x) == ReplayAt(evs + more[..k] + more[k..], x)
  {
    assert evs + more == evs + more[..k] + more[k..];
  }

  /** An observation tells nobody else anything. */
  lemma ObserveHeldByOthers(w: World, z: ZoneId, o: Id, spawns: seq<Id>, despawns: seq<Id>, x: Id)
    requires z in w.zones && o in w.zones[z].entities && x != o && ClientOk(w, x)
    ensures Held(Observe(w, z, o, spawns, despawns), x) == Held(w, x)
  {
    var w' := Observe(w, z, o, spawns, despawns);
    ObserveLog(w, z, o, spawns, despawns);
    HeldGrows(w, w', x);
    HearOthers(Events(w.log[w.joined[x]..]), Published(w, w'), x);
  }

  // ---------- when the position is right ----------

  /** Client `x` holds the live entity `y`, if at all, where it stands. */
  ghost predicate Right(w: World, x: Id, y: Id) {
    x in w.entities && y in w.entities && y in Held(w, x) ==> Held(w, x)[y] == PositionOf(w, y)
  }

  /** What a step must not do behind the back of `x`: move `y` to a new place out of its sight, or add it
      again in another place while `x` still holds it. */
  ghost predicate Sighted(w: World, op: Op, x: Id, y: Id) {
    match op
    case MoveTo(s, p) =>
      s == y && y in w.entities && y in w.entityZone && x in w.entities && y in Held(w, x) && Held(w, x)[y] != p ==> Reached(w, y, p, x)
    case Add(_, v) => v.id == y && x in w.entities && y in Held(w, x) ==> Held(w, x)[y] == v.position
    case _ => true
  }

  /** Nothing is said and nobody moves; someone may go. */
  ghost predicate Quiet(w: World, w': World) {
    && w'.log == w.log && w'.joined == w.joined && w'.objs == w.objs
    && forall u :: u in w'.entities ==> u in w.entities && w'.entities[u] == w.entities[u]
  }

  lemma QuietIsRight(w: World, w': World, x: Id, y: Id)
    requires Quiet(w, w') && Right(w, x, y)
    ensures Right(w', x, y)
  {
  }

  lemma OtherStepsAreQuiet(w: World, op: Op)
    requires !op.Add? && !op.MoveTo? && !op.ObserveOne?
    ensures Quiet(w, Step(w, op))
  {
    OtherStepsShrink(w, op);
    if !op.Take? { NoPublish(w, op); }
    NobodyJoins(w, op);
  }

  lemma NobodyJoins(w: World, op: Op)
    requires !op.Add?
    ensures Step(w, op).joined == w.joined && (op.Take? ==> Step(w, op).log == w.log)
  {
  }

  lemma AddHeld(w: World, e: Entity, v: EntityVal, x: Id)
    ensures Held(AddEntity(w, e, v), x) == if x == v.id then map[] else Held(w, x)
  {
    var w' := AddEntity(w, e, v);
    if x == v.id { assert w'.log[w'.joined[x]..] == []; }
  }

  lemma AddPositions(w: World, e: Entity, v: EntityVal, y: Id)
    requires Enabled(w, Add(e, v)) && (y in w.entities && y != v.id ==> LiveOk(w, y))
    ensures var w' := AddEntity(w, e, v);
            && (y in w'.entities <==> y in w.entities || y == v.id)
            && (y in w'.entities ==> PositionOf(w', y) == if y == v.id then v.position else PositionOf(w, y))
  {
  }

  lemma AddRightIff(w: World, e: Entity, v: EntityVal, x: Id, y: Id)
    requires Agree(w) && Enabled(w, Add(e, v)) && v.id !in w.entities && Right(w, x, y)
    ensures Right(AddEntity(w, e, v), x, y) <==> Sighted(w, Add(e, v), x, y)
  {
    AddHeld(w, e, v, x);
    if y in w.entities { assert LiveOk(w, y); }
    AddPositions(w, e, v, y);
    assert x in AddEntity(w, e, v).entities <==> x in w.entities || x == v.id;
  }

  lemma MoveRightIff(w: World, s: Id, p: Vec, x: Id, y: Id)
    requires Good(w) && Right(w, x, y)
    ensures Right(MoveEntity(w, s, p), x, y) <==> Sighted(w, MoveTo(s, p), x, y)
  {
    if s in w.entities {
      MovedSceneGood(w, s, p, y);
      if x in w.entities { MoveHeldGood(w, s, p, x); }
      MovedRightIff(w, MoveEntity(w, s, p), s, p, x, y);
    }
  }

  lemma MovedSceneGood(w: World, s: Id, p: Vec, y: Id)
    requires Good(w) && s in w.entities
    ensures var w' := MoveEntity(w, s, p);
            w'.entities == w.entities && (y in w.entities ==> PositionOf(w', y) == if y == s then p else PositionOf(w, y))
  {
    MovedScene(w, s, p, y);
  }

  lemma MoveHeldGood(w: World, s: Id, p: Vec, x: Id)
    requires Good(w) && s in w.entities && x in w.entities
    ensures s in w.entityZone && x !in Held(w, x)
    ensures Held(MoveEntity(w, s, p), x) == if Reached(w, s, p, x) && s in Held(w, x) then Held(w, x)[s := p] else Held(w, x)
  {
    assert LiveOk(w, s) && ClientOk(w, x);
    MoveHeld(w, s, p, x);
    HeldIsVisible(w, x);
  }

  lemma MovedRightIff(w: World, w': World, s: Id, p: Vec, x: Id, y: Id)
    requires Right(w, x, y) && s in w.entities && w'.entities == w.entities
    requires y in w.entities ==> PositionOf(w', y) == if y == s then p else PositionOf(w, y)
    requires x in w.entities ==> && s in w.entityZone && x !in Held(w, x)
                                 && Held(w', x) == if Reached(w, s, p, x) && s in Held(w, x) then Held(w, x)[s := p] else Held(w, x)
    ensures Right(w', x, y) <==> Sighted(w, MoveTo(s, p), x, y)
  {
  }

  lemma ObserveRight(w: World, z: ZoneId, o: Id, spawns: seq<Id>, despawns: seq<Id>, x: Id, y: Id)
    requires ClientsOk(w) && Enabled(w, ObserveOne(z, o, spawns, despawns)) && Right(w, x, y)
    ensures Right(Observe(w, z, o, spawns, despawns), x, y)
  {
    if x in w.entities {
      assert ClientOk(w, x);
      if z !in w.zones {
      } else if o !in w.zones[z].entities {
      } else if x == o {
        ObserverIsRight(w, z, x, spawns, despawns, y);
      } else {
        OthersAreRight(w, z, o, spawns, despawns, x, y);
      }
    }
  }

  lemma OthersAreRight(w: World, z: ZoneId, o: Id, spawns: seq<Id>, despawns: seq<Id>, x: Id, y: Id)
    requires z in w.zones && o in w.zones[z].entities && x != o && ClientOk(w, x) && Right(w, x, y)
    ensures Right(Observe(w, z, o, spawns, despawns), x, y)
  {
    ObserveHeldByOthers(w, z, o, spawns, despawns, x);
  }

  lemma ObserverIsRight(w: World, z: ZoneId, x: Id, spawns: seq<Id>, despawns: seq<Id>, y: Id)
    requires z in w.zones && x in w.zones[z].entities && Enabled(w, ObserveOne(z, x, spawns, despawns)) && ClientOk(w, x)
    requires x in w.entities && Right(w, x, y)
    ensures Right(Observe(w, z, x, spawns, despawns), x, y)
  {
    ObserveHeld(w, z, x, spawns, despawns, y);
  }

  /** From a good state in which `x` holds `y` where it stands, a disciplined step leads to another one
      if and only if it is sighted. */
  lemma StepRightIff(w: World, op: Op, x: Id, y: Id)
    requires Good(w) && Enabled(w, op) && Disciplined(w, op) && Right(w, x, y)
    ensures Right(Step(w, op), x, y) <==> Sighted(w, op, x, y)
  {
    if op.Add? { AddRightIff(w, op.e, op.v, x, y); }
    else if op.MoveTo? { MoveRightIff(w, op.x, op.p, x, y); }
    else if op.ObserveOne? { ObserveRight(w, op.z, op.x, op.spawns, op.despawns, x, y); }
    else { OtherStepsAreQuiet(w, op); QuietIsRight(w, Step(w, op), x, y); }
  }

  ghost predicate AlwaysRight(w: World, ops: seq<Op>, x: Id, y: Id) {
    Right(Run(w, ops), x, y) && (ops == [] || AlwaysRight(w, ops[..|ops| - 1], x, y))
  }

  ghost predicate AllSighted(w: World, ops: seq<Op>, x: Id, y: Id) {
    ops == [] || (AllSighted(w, ops[..|ops| - 1], x, y) && Sighted(Run(w, ops[..|ops| - 1]), ops[|ops| - 1], x, y))
  }

  /** Over every disciplined run: at every moment client `x` holds the live entity `y`, if at all, exactly
      where it stands, if and only if every step is sighted. */
  lemma {:induction false} PositionsAreRightIff(ops: seq<Op>, x: Id, y: Id)
    requires AllEnabled(Start(), ops) && AllDisciplined(Start(), ops)
    ensures AlwaysRight(Start(), ops, x, y) <==> AllSighted(Start(), ops, x, y)
    decreases |ops|
  {
    if ops != [] {
      var front, op := ops[..|ops| - 1], ops[|ops| - 1];
      FrontEnabled(Start(), ops);
      FrontDisciplined(Start(), ops);
      PositionsAreRightIff(front, x, y);
      DisciplinedRun(front);
      if AlwaysRight(Start(), front, x, y) { StepRightIff(Run(Start(), front), op, x, y); }
    }
  }

  lemma FrontDisciplined(w: World, ops: seq<Op>)
    requires AllDisciplined(w, ops) && ops != []
    ensures AllDisciplined(w, ops[..|ops| - 1]) && Disciplined(Run(w, ops[..|ops| - 1]), ops[|ops| - 1])
  {
    var front := ops[..|ops| - 1];
    assert forall i :: 0 <= i < |front| ==> front[i] == ops[i] && front[..i] == ops[..i];
  }

  // ---------- end to end ----------

  lemma {:induction false} ObservationsKeepRight(w: World, ops: seq<Op>, x: Id, y: Id)
    requires Good(w) && AllEnabled(w, ops) && (forall op :: op in ops ==> op.ObserveOne?) && Right(w, x, y)
    ensures Good(Run(w, ops)) && Right(Run(w, ops), x, y)
    decreases |ops|
  {
    if ops != [] {
      var front := ops[..|ops| - 1];
      FrontEnabled(w, ops);
      assert forall op :: op in front ==> op in ops;
      ObservationsKeepRight(w, front, x, y);
      assert ops[|ops| - 1] in ops;
      GoodObservation(Run(w, front), ops[|ops| - 1], x, y);
    }
  }

  lemma GoodObservation(w: World, op: Op, x: Id, y: Id)
    requires Good(w) && op.ObserveOne? && Enabled(w, op) && Right(w, x, y)
    ensures Good(Step(w, op)) && Right(Step(w, op), x, y)
  {
    StepGood(w, op);
    ObserveOpRight(w, op, x, y);
  }

  lemma ObserveOpRight(w: World, op: Op, x: Id, y: Id)
    requires ClientsOk(w) && op.ObserveOne? && Enabled(w, op) && Right(w, x, y)
    ensures Right(Step(w, op), x, y)
  {
    ObserveRight(w, op.z, op.x, op.spawns, op.despawns, x, y);
  }

  /** After any disciplined and sighted run and one visibility pass, a client of the zone holds exactly the
      other live entities of the zone within 300, each at the very position where it stands. */
  lemma ClientsHoldPositions(ops: seq<Op>, z: ZoneId, pass: seq<Op>, order: seq<Id>, x: Id, y: Id)
    requires AllEnabled(Start(), ops) && AllDisciplined(Start(), ops) && AllSighted(Start(), ops, x, y)
    requires IsPass(Run(Start(), ops), z, pass, order) && AllEnabled(Run(Start(), ops), pass)
    requires x in Run(Start(), ops).entities && x in Run(Start(), ops).entityZone && Run(Start(), ops).entityZone[x] == z
    ensures var w := Run(Run(Start(), ops), pass);
            (y in Held(w, x) <==> InSight(w, z, x, y)) && (InSight(w, z, x, y) ==> Held(w, x)[y] == PositionOf(w, y))
  {
    RightAfterPass(ops, z, pass, order, x, y);
    ClientsSeeInCoordinates(ops, z, pass, order, x, y);
    HeldIsReplayed(Run(Run(Start(), ops), pass), x);
  }

  lemma RightAfterPass(ops: seq<Op>, z: ZoneId, pass: seq<Op>, order: seq<Id>, x: Id, y: Id)
    requires AllEnabled(Start(), ops) && AllDisciplined(Start(), ops) && AllSighted(Start(), ops, x, y)
    requires IsPass(Run(Start(), ops), z, pass, order) && AllEnabled(Run(Start(), ops), pass)
    ensures Right(Run(Run(Start(), ops), pass), x, y)
  {
    DisciplinedRun(ops);
    PositionsAreRightIff(ops, x, y);
    ObservationsKeepRight(Run(Start(), ops), pass, x, y);
  }

  lemma HeldIsReplayed(w: World, x: Id)
    requires x in w.joined && w.joined[x] <= |w.log|
    ensures Held(w, x).Keys == Replay(Events(w.log[w.joined[x]..]), x)
  {
    HeldHavePositions(Events(w.log[w.joined[x]..]), x);
  }
}
