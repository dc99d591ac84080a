/** What the loops of a tick achieve as a whole, whatever the order of the maps they visit. */
module Passes {
  import opened Ids
  import opened Worlds
  import opened Invariants
  import opened Coordinates
  import opened Replication
  import opened History

  // ---------- simulation and packets ----------

  /** Every live entity has an object of its own. */
  ghost predicate HasBody(w: World, x: Id) {
    x in w.entities ==> w.entities[x] in w.objs && w.objs[w.entities[x]].id == x
  }

  lemma BodiesOf(w: World, x: Id)
    requires Agree(w)
    ensures HasBody(w, x)
  {
    if x in w.entities { assert LiveOk(w, x); }
  }

  /** Between `w` and `w'` entities have only moved: `x` has come to `p`. */
  ghost predicate Lands(w: World, w': World, x: Id, p: Vec) {
    && w'.entities == w.entities && x in w.entities && HasBody(w', x) && PositionOf(w', x) == p
    && w'.Obj(w.entities[x]).autonomous == w.Obj(w.entities[x]).autonomous
  }

  lemma OneMoveLands(w: World, w1: World, y: Id, p: Vec, x: Id, at: Vec)
    requires Lands(w, w1, x, at) && HasBody(w1, y)
    ensures Lands(w, MoveEntity(w1, y, p), x, if y == x then p else at)
  {
    if y in w1.entities { MovedPosition(w1, MoveEntity(w1, y, p), y, p, x); }
  }

  lemma MoveKeepsBody(w: World, y: Id, p: Vec, x: Id)
    requires HasBody(w, x)
    ensures HasBody(MoveEntity(w, y, p), x)
  {
  }

  /** Where the simulation puts `x`: where it wants to be, if it has a lifecycle and was asked. */
  function Wanted(w: World, moves: map<Id, Vec>, asked: seq<Id>, x: Id): Vec
    requires x in w.entities
  {
    if x in asked && w.Obj(w.entities[x]).autonomous && x in moves then moves[x] else PositionOf(w, x)
  }

  lemma {:induction false} SimulationKeepsBody(w: World, moves: map<Id, Vec>, order: seq<Id>, x: Id)
    requires HasBody(w, x)
    ensures HasBody(Simulated(w, moves, order), x)
    decreases |order|
  {
    if order != [] {
      var front, y := order[..|order| - 1], order[|order| - 1];
      SimulationKeepsBody(w, moves, front, x);
      if Wants(Simulated(w, moves, front), moves, y) { MoveKeepsBody(Simulated(w, moves, front), y, moves[y], x); }
    }
  }

  /** The simulation as a whole: every live entity with a lifecycle that was asked and wants to be somewhere
      is there, and no other has moved. */
  lemma {:induction false} SimulationLands(w: World, moves: map<Id, Vec>, order: seq<Id>, x: Id)
    requires Agree(w) && x in w.entities
    ensures Lands(w, Simulated(w, moves, order), x, Wanted(w, moves, order, x))
    decreases |order|
  {
    if order == [] {
      BodiesOf(w, x);
    } else {
      var front, y := order[..|order| - 1], order[|order| - 1];
      SimulationLands(w, moves, front, x);
      BodiesOf(w, y);
      SimulationKeepsBody(w, moves, front, y);
      SimulatedNext(w, Simulated(w, moves, front), moves, front, y, x);
      assert order == front + [y];
    }
  }

  lemma SimulatedNext(w: World, w1: World, moves: map<Id, Vec>, front: seq<Id>, y: Id, x: Id)
    requires x in w.entities && Lands(w, w1, x, Wanted(w, moves, front, x)) && HasBody(w1, y)
    ensures Lands(w, SimulateOne(w1, moves, y), x, Wanted(w, moves, front + [y], x))
  {
    if Wants(w1, moves, y) { OneMoveLands(w, w1, y, moves[y], x, Wanted(w, moves, front, x)); }
  }

  /** Where the latest of the moves puts `x`. */
  function LastMove(ops: seq<Op>, x: Id, from: Vec): Vec {
    if ops == [] then from
    else
      var op := ops[|ops| - 1];
      if op.MoveTo? && op.x == x then op.p else LastMove(ops[..|ops| - 1], x, from)
  }

  lemma {:induction false} MovesKeepBody(w: World, ops: seq<Op>, x: Id)
    requires HasBody(w, x) && forall op :: op in ops ==> op.MoveTo?
    ensures HasBody(Run(w, ops), x)
    decreases |ops|
  {
    if ops != [] {
      var front, op := ops[..|ops| - 1], ops[|ops| - 1];
      assert op in ops && forall o :: o in front ==> o in ops;
      MovesKeepBody(w, front, x);
      MoveKeepsBody(Run(w, front), op.x, op.p, x);
    }
  }

  /** Any sequence of moves leaves each live entity where its latest move put it. */
  lemma {:induction false} MovesLandLast(w: World, ops: seq<Op>, x: Id)
    requires Agree(w) && x in w.entities && forall op :: op in ops ==> op.MoveTo?
    ensures Lands(w, Run(w, ops), x, LastMove(ops, x, PositionOf(w, x)))
    decreases |ops|
  {
    if ops == [] {
      BodiesOf(w, x);
    } else {
      var front, op := ops[..|ops| - 1], ops[|ops| - 1];
      assert op in ops && forall o :: o in front ==> o in ops;
      MovesLandLast(w, front, x);
      BodiesOf(w, op.x);
      MovesKeepBody(w, front, op.x);
      OneMoveLands(w, Run(w, front), op.x, op.p, x, LastMove(front, x, PositionOf(w, x)));
    }
  }

  // ---------- local ghosts ----------

  lemma ExpireMore(w: World, order: seq<Id>, gid: Id, now: int)
    ensures Run(w, ExpireOps(order + [gid], now)) == ExpireGhost(Run(w, ExpireOps(order, now)), gid, now)
  {
    RunMore(w, ExpireOps(order, now), ExpireOne(gid, now));
    assert ExpireOps(order + [gid], now) == ExpireOps(order, now) + [ExpireOne(gid, now)];
  }

  lemma {:induction false} ExpireProgress(w: World, order: seq<Id>, now: int, id: Id)
    ensures var w' := Run(w, ExpireOps(order, now));
            && (id in w'.ghosts <==> id in w.ghosts && !(id in order && now > w.ghosts[id].expiresAt))
            && (id in w'.ghosts ==> w'.ghosts[id] == w.ghosts[id])
    decreases |order|
  {
    if order == [] {
      assert ExpireOps(order, now) == [];
    } else {
      var front, gid := order[..|order| - 1], order[|order| - 1];
      ExpireProgress(w, front, now, id);
      assert order == front + [gid];
      ExpireMore(w, front, gid, now);
      ExpireGhosts(Run(w, ExpireOps(front, now)), gid, now, id);
    }
  }

  /** The ghost sweep takes exactly the ghosts whose time is over. */
  lemma GhostsSweptExactly(w: World, order: seq<Id>, now: int, id: Id)
    requires Visits(order, w.ghosts.Keys)
    ensures var w' := Run(w, ExpireOps(order, now));
            && (id in w'.ghosts <==> id in w.ghosts && now <= w.ghosts[id].expiresAt) && (id in w'.ghosts ==> w'.ghosts[id] == w.ghosts[id])
  {
    ExpireProgress(w, order, now, id);
  }

  /** Nothing that decides a crossing has changed. */
  ghost predicate SameStand(w: World, w': World, z: ZoneId) {
    && w'.entityAOI == w.entityAOI && w'.objs == w.objs && z in w.zones && z in w'.zones
    && w'.zones[z].entities == w.zones[z].entities && w'.zones[z].grid.cellSize == w.zones[z].grid.cellSize
  }

  lemma DetectStands(w: World, z: ZoneId, x: Id, now: int)
    requires z in w.zones
    ensures SameStand(w, Detect(w, z, x, now), z)
  {
  }

  lemma DetectMore(w: World, z: ZoneId, order: seq<Id>, x: Id, now: int)
    ensures Run(w, DetectOps(z, order + [x], now)) == Detect(Run(w, DetectOps(z, order, now)), z, x, now)
  {
    RunMore(w, DetectOps(z, order, now), DetectOne(z, x, now));
    assert DetectOps(z, order + [x], now) == DetectOps(z, order, now) + [DetectOne(z, x, now)];
  }

  function GhostOf(w: World, id: Id): Option<GhostEntry> {
    if id in w.ghosts then Some(w.ghosts[id]) else None
  }

  /** Boundary detection as a whole: it leaves a ghost, at the place of the last observation and for five
      seconds, for every entity of the zone that has crossed into another cell, and no other. */
  lemma {:induction false} CrossingsLeaveGhosts(w: World, z: ZoneId, order: seq<Id>, now: int, x: Id)
    requires z in w.zones && w.zones[z].grid.cellSize == CELL_SIZE
    ensures SameStand(w, Run(w, DetectOps(z, order, now)), z)
    ensures GhostOf(Run(w, DetectOps(z, order, now)), x + "_ghost")
         == if x in order && Crossed(w, z, x) then Some(GhostEntry(false, x, z, w.entityAOI[x].lastPosition, now + 5000)) else GhostOf(w, x + "_ghost")
    decreases |order|
  {
    if order == [] {
      assert DetectOps(z, order, now) == [];
    } else {
      var front, y := order[..|order| - 1], order[|order| - 1];
      CrossingsLeaveGhosts(w, z, front, now, x);
      assert order == front + [y];
      DetectMore(w, z, front, y, now);
      CrossingNext(w, Run(w, DetectOps(z, front, now)), z, y, now, x);
    }
  }

  lemma CrossingNext(w: World, w1: World, z: ZoneId, y: Id, now: int, x: Id)
    requires SameStand(w, w1, z) && w.zones[z].grid.cellSize == CELL_SIZE
    ensures SameStand(w, Detect(w1, z, y, now), z)
    ensures GhostOf(Detect(w1, z, y, now), x + "_ghost")
         == if x == y && Crossed(w, z, x) then Some(GhostEntry(false, x, z, w.entityAOI[x].lastPosition, now + 5000)) else GhostOf(w1, x + "_ghost")
  {
    DetectStands(w1, z, y, now);
    CrossedIff(w1, z, y, now);
    SameMark(x, y);
  }

  lemma SameMark(x: Id, y: Id)
    ensures x + "_ghost" == y + "_ghost" <==> x == y
  {
    if x + "_ghost" == y + "_ghost" {
      assert |x| == |y|;
      assert x == (x + "_ghost")[..|x|] == (y + "_ghost")[..|y|] == y;
    }
  }
}
