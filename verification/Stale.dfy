/** Runs from an empty server after which a client holds an entity it sees in a place where it is not. */
module Stale {
  import opened Ids
  import opened Objects
  import opened Worlds
  import opened Invariants
  import opened Visibility
  import opened Clients
  import opened Coordinates
  import opened Replication
  import opened Motion
  import opened Leaks
  import opened Leftovers
  import opened Sessions

  /** Both live in the default zone: `x` at `p`, and `y` at `q`. */
  ghost predicate Apart(w: World, x: Id, y: Id, p: Vec, q: Vec, e: Entity, f: Entity) {
    Lives(w, x, p, e) && Lives(w, y, q, f)
  }

  /** `x` is the live entity `e` of the default zone, at `p`. */
  ghost predicate Lives(w: World, x: Id, p: Vec, e: Entity) {
    x in w.entities && w.entities[x] == e && x in w.entityZone && w.entityZone[x] == DEFAULT_ZONE && Lists(w, DEFAULT_ZONE, x, e, p)
  }

  /** `x` stands at `p` and `y` at `q`, and client `y` sees `x` and holds it at `h`. */
  ghost predicate HoldsAt(w: World, x: Id, y: Id, p: Vec, q: Vec, e: Entity, f: Entity, h: Vec) {
    Apart(w, x, y, p, q, e, f) && x in w.Visible(y) && x in Held(w, y) && Held(w, y)[x] == h
  }

  lemma FirstSight(w: World, x: Id, y: Id, p: Vec, e: Entity, f: Entity, spawns: seq<Id>, despawns: seq<Id>)
    requires Together(w, x, y, p, e, f) && x != y && w.log == [] && ClientOk(w, y) && Enabled(w, ObserveOne(DEFAULT_ZONE, y, spawns, despawns))
    requires var w' := Observe(w, DEFAULT_ZONE, y, spawns, despawns);
             Together(w', x, y, p, e, f) && x in w'.Visible(y) && IsReal(x) && ClientOk(w', y)
    ensures HoldsAt(Observe(w, DEFAULT_ZONE, y, spawns, despawns), x, y, p, p, e, f, p)
  {
    assert Events(w.log[w.joined[y]..]) == [];
    ObserveHeld(w, DEFAULT_ZONE, y, spawns, despawns, x);
    HeldIsVisible(Observe(w, DEFAULT_ZONE, y, spawns, despawns), y);
  }

  /** The two meet and `y` observes. */
  function SeenOps(x: Id, y: Id, p: Vec, space: string, e: Entity, f: Entity, spawns: seq<Id>, despawns: seq<Id>): seq<Op> {
    MeetOps(x, y, p, space, e, f) + [ObserveOne(DEFAULT_ZONE, y, spawns, despawns)]
  }

  lemma SeenReached(x: Id, y: Id, p: Vec, space: string, e: Entity, f: Entity, spawns: seq<Id>, despawns: seq<Id>) returns (w: World)
    requires IsReal(x) && IsReal(y) && x != y && e != f
    requires Enabled(Run(Start(), MeetOps(x, y, p, space, e, f)), ObserveOne(DEFAULT_ZONE, y, spawns, despawns))
    ensures Reaches(SeenOps(x, y, p, space, e, f, spawns, despawns), w) && Good(w) && HoldsAt(w, x, y, p, p, e, f, p) && w.objs.Keys == {e, f}
  {
    var w0 := MeetReached(x, y, p, space, e, f);
    SeesTheOther(MeetOps(x, y, p, space, e, f), w0, x, y, p, e, f, spawns, despawns);
    DisciplinedRun(MeetOps(x, y, p, space, e, f));
    w := Observe(w0, DEFAULT_ZONE, y, spawns, despawns);
    assert ClientOk(w0, y) && ClientOk(w, y);
    FirstSight(w0, x, y, p, e, f, spawns, despawns);
  }

  // ---------- a move out of sight ----------

  lemma MoveApart(w: World, x: Id, y: Id, p: Vec, q: Vec, e: Entity, f: Entity, r: Vec)
    requires Apart(w, x, y, p, q, e, f) && x != y && e != f
    ensures Apart(MoveEntity(w, x, r), x, y, r, q, e, f) && MoveEntity(w, x, r).Visible(y) == w.Visible(y)
    ensures Apart(MoveEntity(w, y, r), x, y, p, r, e, f) && MoveEntity(w, y, r).Visible(y) == w.Visible(y)
  {
    MoveLives(w, x, e, r, y, q, f);
    MoveLives(w, x, e, r, x, p, e);
    MoveLives(w, y, f, r, x, p, e);
    MoveLives(w, y, f, r, y, q, f);
  }

  lemma MoveLives(w: World, s: Id, g: Entity, r: Vec, x: Id, p: Vec, e: Entity)
    requires Lives(w, x, p, e) && s in w.entities && w.entities[s] == g && (s == x <==> g == e)
    ensures Lives(MoveEntity(w, s, r), x, if s == x then r else p, e)
  {
    MoveKeepsListings(w, s, r);
    MovedBody(w, MoveEntity(w, s, r), s, g, r, e);
  }

  lemma MovedBody(w: World, w': World, s: Id, g: Entity, r: Vec, e: Entity)
    requires w'.objs == w.objs[g := w.Obj(g).(position := r)]
    ensures w'.Obj(e).position == if e == g then r else w.Obj(e).position
  {
  }

  /** `x` goes out of the sight of `y`, who is not told. */
  lemma GoesUnseen(ops: seq<Op>, w: World, x: Id, y: Id, p: Vec, e: Entity, f: Entity, r: Vec)
    requires Reaches(ops, w) && Good(w) && HoldsAt(w, x, y, p, p, e, f, p) && x != y && e != f && !Within300(p, r)
    ensures var w' := MoveEntity(w, x, r);
            Reaches(ops + [MoveTo(x, r)], w') && Good(w') && HoldsAt(w', x, y, r, p, e, f, p)
  {
    ReachesMove(ops, w, x, r);
    DisciplinedRun(ops + [MoveTo(x, r)]);
    MoveApart(w, x, y, p, p, e, f, r);
    MoveUnseen(w, x, y, p, e, f, r);
  }

  lemma MoveUnseen(w: World, x: Id, y: Id, p: Vec, e: Entity, f: Entity, r: Vec)
    requires Good(w) && Apart(w, x, y, p, p, e, f) && !Within300(p, r)
    ensures Held(MoveEntity(w, x, r), y) == Held(w, y)
  {
    MoveHeldGood(w, x, r, y);
    assert PositionOf(w, y) == p;
  }

  /** `y` follows; its own move tells it nothing. */
  lemma Follows(ops: seq<Op>, w: World, x: Id, y: Id, p: Vec, e: Entity, f: Entity, r: Vec)
    requires Reaches(ops, w) && Good(w) && HoldsAt(w, x, y, r, p, e, f, p) && x != y && e != f
    ensures var w' := MoveEntity(w, y, r);
            Reaches(ops + [MoveTo(y, r)], w') && Good(w') && HoldsAt(w', x, y, r, r, e, f, p)
  {
    ReachesMove(ops, w, y, r);
    DisciplinedRun(ops + [MoveTo(y, r)]);
    MoveApart(w, x, y, r, p, e, f, r);
    MoveHeldGood(w, y, r, y);
  }

  /** An observation that finds `x` still in range does not correct its position. */
  lemma StaysWrong(w: World, x: Id, y: Id, p: Vec, q: Vec, e: Entity, f: Entity, h: Vec, spawns: seq<Id>, despawns: seq<Id>)
    requires Good(w) && HoldsAt(w, x, y, p, q, e, f, h) && x != y && Within300(p, q)
    requires Enabled(w, ObserveOne(DEFAULT_ZONE, y, spawns, despawns))
    ensures var w' := Observe(w, DEFAULT_ZONE, y, spawns, despawns);
            InSight(w', DEFAULT_ZONE, y, x) && PositionOf(w', x) == p && x in Held(w', y) && Held(w', y)[x] == h
  {
    GoodParts(w, x, y);
    InRangeStill(w, x, y, p, q, e, f);
    StillHeld(w, x, y, p, q, e, f, h, spawns, despawns);
    ApartInSight(Observe(w, DEFAULT_ZONE, y, spawns, despawns), x, y, p, q, e, f);
  }

  lemma GoodParts(w: World, x: Id, y: Id)
    requires Good(w) && x in w.entities && y in w.entities && DEFAULT_ZONE in w.zones
    ensures ZonesOk(w) && Agree(w) && Settled(w, DEFAULT_ZONE) && IsReal(x) && ClientOk(w, y)
  {
    assert LiveOk(w, x);
  }

  lemma StillHeld(w: World, x: Id, y: Id, p: Vec, q: Vec, e: Entity, f: Entity, h: Vec, spawns: seq<Id>, despawns: seq<Id>)
    requires ClientOk(w, y) && HoldsAt(w, x, y, p, q, e, f, h) && x in w.Surroundings(DEFAULT_ZONE, y)
    requires Enabled(w, ObserveOne(DEFAULT_ZONE, y, spawns, despawns))
    ensures var w' := Observe(w, DEFAULT_ZONE, y, spawns, despawns);
            Apart(w', x, y, p, q, e, f) && x in Held(w', y) && Held(w', y)[x] == h
  {
    ObserveHeld(w, DEFAULT_ZONE, y, spawns, despawns, x);
  }

  lemma ApartInSight(w: World, x: Id, y: Id, p: Vec, q: Vec, e: Entity, f: Entity)
    requires Apart(w, x, y, p, q, e, f) && x != y && Within300(p, q)
    ensures InSight(w, DEFAULT_ZONE, y, x) && PositionOf(w, x) == p
  {
    assert PositionOf(w, x) == p && PositionOf(w, y) == q;
  }

  lemma InRangeStill(w: World, x: Id, y: Id, p: Vec, q: Vec, e: Entity, f: Entity)
    requires ZonesOk(w) && Agree(w) && DEFAULT_ZONE in w.zones && Settled(w, DEFAULT_ZONE) && IsReal(x)
    requires Apart(w, x, y, p, q, e, f) && x != y && Within300(p, q)
    ensures x in w.Surroundings(DEFAULT_ZONE, y)
  {
    RangeIn300(w, DEFAULT_ZONE, q, x);
    assert PositionOf(w, x) == p;
  }

  /** The failing input: `x` moves out of the sight of `y`, `y` follows it and observes.  It sees `x`, at
      the position of before. */
  lemma MovedOutOfSightIsStale(x: Id, y: Id, p: Vec, r: Vec, space: string, e: Entity, f: Entity, spawns: seq<Id>, despawns: seq<Id>,
                               spawns': seq<Id>, despawns': seq<Id>)
    requires IsReal(x) && IsReal(y) && x != y && e != f && !Within300(p, r)
    requires Enabled(Run(Start(), MeetOps(x, y, p, space, e, f)), ObserveOne(DEFAULT_ZONE, y, spawns, despawns))
    requires Enabled(Run(Start(), SeenOps(x, y, p, space, e, f, spawns, despawns) + [MoveTo(x, r)] + [MoveTo(y, r)]),
                     ObserveOne(DEFAULT_ZONE, y, spawns', despawns'))
    ensures var ops := SeenOps(x, y, p, space, e, f, spawns, despawns) + [MoveTo(x, r)] + [MoveTo(y, r)] + [ObserveOne(DEFAULT_ZONE, y, spawns', despawns')];
            var w := Run(Start(), ops);
            && Reaches(ops, w) && InSight(w, DEFAULT_ZONE, y, x) && PositionOf(w, x) == r && x in Held(w, y) && Held(w, y)[x] == p && p != r
  {
    var w := SeenReached(x, y, p, space, e, f, spawns, despawns);
    var ops := SeenOps(x, y, p, space, e, f, spawns, despawns);
    GoesUnseen(ops, w, x, y, p, e, f, r);
    ops, w := ops + [MoveTo(x, r)], MoveEntity(w, x, r);
    Follows(ops, w, x, y, p, e, f, r);
    ops, w := ops + [MoveTo(y, r)], MoveEntity(w, y, r);
    StaysWrong(w, x, y, r, r, e, f, p, spawns', despawns');
    ReachesObserve(ops, w, DEFAULT_ZONE, y, spawns', despawns');
    NotFar(p, r);
  }

  lemma NotFar(p: Vec, r: Vec)
    requires !Within300(p, r)
    ensures p != r && Within300(r, r)
  {
  }

  // ---------- a new entity under a held id ----------

  /** `x` is removed and another object is added under its id, at `r`, before `y` observes. */
  lemma ReplacedApart(w: World, x: Id, y: Id, p: Vec, e: Entity, f: Entity, r: Vec, space: string, g: Entity)
    requires Apart(w, x, y, p, p, e, f) && x != y && g != f
    ensures var w1 := RemoveEntity(w, x);
            var w2 := AddEntity(w1, g, Person(x, r, "", space));
            && x !in w1.entities && w1.objs == w.objs && Apart(w2, x, y, r, p, g, f) && w2.Visible(y) == w.Visible(y)
  {
    RemovedApart(w, x, y, p, e, f);
    AddedApart(RemoveEntity(w, x), x, y, p, f, r, space, g);
  }

  lemma RemovedApart(w: World, x: Id, y: Id, p: Vec, e: Entity, f: Entity)
    requires Apart(w, x, y, p, p, e, f) && x != y
    ensures var w1 := RemoveEntity(w, x);
            x !in w1.entities && Lives(w1, y, p, f) && w1.objs == w.objs && w1.Visible(y) == w.Visible(y)
  {
  }

  lemma AddedApart(w: World, x: Id, y: Id, p: Vec, f: Entity, r: Vec, space: string, g: Entity)
    requires Lives(w, y, p, f) && x != y && g != f
    ensures var w2 := AddEntity(w, g, Person(x, r, "", space)); Apart(w2, x, y, r, p, g, f) && w2.Visible(y) == w.Visible(y)
  {
  }

  lemma ReplacedHeld(w: World, x: Id, y: Id, g: Entity, v: EntityVal)
    requires v.id == x && x != y
    ensures Held(AddEntity(RemoveEntity(w, x), g, v), y) == Held(w, y)
  {
    AddHeld(RemoveEntity(w, x), g, v, y);
  }

  lemma ReplacedReached(ops: seq<Op>, w: World, x: Id, g: Entity, v: EntityVal)
    requires Reaches(ops, w) && v.id == x && IsReal(x) && g !in w.objs
    requires x !in RemoveEntity(w, x).entities && RemoveEntity(w, x).objs == w.objs
    ensures Reaches(ops + [Remove(x)] + [Add(g, v)], AddEntity(RemoveEntity(w, x), g, v))
  {
    ReachesRemove(ops, w, x);
    ReachesAdd(ops + [Remove(x)], RemoveEntity(w, x), g, v);
  }

  lemma ReachesRemove(ops: seq<Op>, w: World, x: Id)
    requires Reaches(ops, w)
    ensures Reaches(ops + [Remove(x)], RemoveEntity(w, x))
  {
    ReachesMore(ops, w, Remove(x));
  }

  lemma ReplacedHolds(ops: seq<Op>, w: World, x: Id, y: Id, p: Vec, e: Entity, f: Entity, r: Vec, space: string, g: Entity)
    requires Reaches(ops, w) && HoldsAt(w, x, y, p, p, e, f, p) && x != y && IsReal(x) && w.objs.Keys == {e, f} && g != e && g != f
    ensures var v := Person(x, r, "", space);
            var w2 := AddEntity(RemoveEntity(w, x), g, v);
            Reaches(ops + [Remove(x)] + [Add(g, v)], w2) && Good(w2) && HoldsAt(w2, x, y, r, p, g, f, p)
  {
    var v := Person(x, r, "", space);
    ReplacedApart(w, x, y, p, e, f, r, space, g);
    ReplacedReached(ops, w, x, g, v);
    ReplacedHeld(w, x, y, g, v);
    DisciplinedRun(ops + [Remove(x)] + [Add(g, v)]);
  }

  /** The failing input for an addition: `x` is replaced under its id somewhere else in the sight of `y`.
      The next observation finds the id seen already, and `y` goes on holding it where the first one stood. */
  lemma ReplacedIsStale(x: Id, y: Id, p: Vec, r: Vec, space: string, e: Entity, f: Entity, g: Entity, spawns: seq<Id>, despawns: seq<Id>,
                        spawns': seq<Id>, despawns': seq<Id>)
    requires IsReal(x) && IsReal(y) && x != y && e != f && g != e && g != f && Within300(r, p) && r != p
    requires Enabled(Run(Start(), MeetOps(x, y, p, space, e, f)), ObserveOne(DEFAULT_ZONE, y, spawns, despawns))
    requires Enabled(Run(Start(), SeenOps(x, y, p, space, e, f, spawns, despawns) + [Remove(x)] + [Add(g, Person(x, r, "", space))]),
                     ObserveOne(DEFAULT_ZONE, y, spawns', despawns'))
    ensures var ops := SeenOps(x, y, p, space, e, f, spawns, despawns) + [Remove(x)] + [Add(g, Person(x, r, "", space))]
                       + [ObserveOne(DEFAULT_ZONE, y, spawns', despawns')];
            var w := Run(Start(), ops);
            && Reaches(ops, w) && InSight(w, DEFAULT_ZONE, y, x) && PositionOf(w, x) == r && x in Held(w, y) && Held(w, y)[x] == p
  {
    var w := SeenReached(x, y, p, space, e, f, spawns, despawns);
    var ops, v := SeenOps(x, y, p, space, e, f, spawns, despawns), Person(x, r, "", space);
    ReplacedHolds(ops, w, x, y, p, e, f, r, space, g);
    ops, w := ops + [Remove(x)] + [Add(g, v)], AddEntity(RemoveEntity(w, x), g, v);
    StaysWrong(w, x, y, r, p, g, f, p, spawns', despawns');
    ReachesObserve(ops, w, DEFAULT_ZONE, y, spawns', despawns');
  }
}
