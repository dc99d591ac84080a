/** Whole histories of the grid: listings are conserved, the index refines a scan of the tracked
    positions, and a serialized grid comes back exact. */
module GridHistory {
  import opened Ids
  import opened Grids

  datatype Op = Enter(id: Id, p: Vec) | Leave(id: Id) | Move(id: Id, p: Vec)

  function Apply(g: Grid, op: Op): (h: Grid)
    ensures h.cellSize == g.cellSize && h.radius == g.radius && h.cellRange == g.cellRange
  {
    match op
    case Enter(id, p) => g.Enter(id, p)
    case Leave(id) => g.Leave(id)
    case Move(id, p) => g.Move(id, p)
  }

  function Run(g: Grid, ops: seq<Op>): (h: Grid)
    ensures h.cellSize == g.cellSize && h.radius == g.radius && h.cellRange == g.cellRange
  {
    if ops == [] then g else Apply(Run(g, ops[..|ops| - 1]), ops[|ops| - 1])
  }

  /** Positions as a plain table would track them. */
  function Track(m: map<Id, Vec>, ops: seq<Op>): map<Id, Vec> {
    if ops == [] then m
    else
      var before := Track(m, ops[..|ops| - 1]);
      match ops[|ops| - 1]
      case Enter(id, p) => before[id := p]
      case Leave(id) => before - {id}
      case Move(id, p) => before[id := p]
  }

  // ---------- listing conservation ----------

  /** All listings of all cells together. */
  ghost function Listed(cells: map<Cell, seq<Id>>): multiset<Id> {
    if cells == map[] then multiset{}
    else var k :| k in cells; multiset(cells[k]) + Listed(cells - {k})
  }

  lemma {:induction false} ListedSplit(cells: map<Cell, seq<Id>>, k: Cell)
    requires k in cells
    ensures Listed(cells) == multiset(cells[k]) + Listed(cells - {k})
    decreases |cells|
  {
    var j :| j in cells && Listed(cells) == multiset(cells[j]) + Listed(cells - {j});
    if j != k {
      ListedSplit(cells - {j}, k);
      ListedSplit(cells - {k}, j);
      assert cells - {j} - {k} == cells - {k} - {j};
    }
  }

  lemma ListedUpdate(cells: map<Cell, seq<Id>>, k: Cell, s: seq<Id>)
    ensures Listed(cells[k := s]) == Listed(cells - {k}) + multiset(s)
    ensures k in cells ==> Listed(cells) == Listed(cells - {k}) + multiset(cells[k])
    ensures k !in cells ==> Listed(cells) == Listed(cells - {k})
  {
    ListedSplit(cells[k := s], k);
    assert cells[k := s] - {k} == cells - {k};
    if k in cells { ListedSplit(cells, k); } else { assert cells - {k} == cells; }
  }

  lemma AppendListing(g: Grid, k: Cell, id: Id)
    ensures Listed(g.cells[k := g.At(k) + [id]]) == Listed(g.cells) + multiset{id}
  {
    ListedUpdate(g.cells, k, g.At(k) + [id]);
  }

  lemma RemoveListing(g: Grid, k: Cell, id: Id)
    requires g.Times(k, id) >= 1
    ensures Listed(g.Unlist(k, id)) == Listed(g.cells) - multiset{id}
    ensures id in Listed(g.cells)
  {
    ListedUpdate(g.cells, k, RemoveFirst(g.At(k), id));
  }

  /** Does this operation add a listing of `id`?  A Move of an absent id does. */
  predicate Enters(g: Grid, op: Op, id: Id) {
    op.id == id && (op.Enter? || (op.Move? && id !in g.positions))
  }

  predicate Leaves(g: Grid, op: Op, id: Id) {
    op.id == id && op.Leave? && id in g.positions
  }

  lemma StepListings(g: Grid, op: Op, id: Id)
    requires g.Valid()
    ensures Listed(Apply(g, op).cells)[id] + (if Leaves(g, op, id) then 1 else 0)
         == Listed(g.cells)[id] + (if Enters(g, op, id) then 1 else 0)
  {
    match op
    case Enter(o, p) => AppendListing(g, g.CellOf(p), o);
    case Leave(o) =>
      if o in g.positions { RemoveListing(g, g.CellOf(g.positions[o]), o); }
    case Move(o, p) =>
      if o in g.positions { MoveListings(g, o, p); } else { AppendListing(g, g.CellOf(p), o); }
  }

  /** A Move of a present id relocates its listing. */
  lemma MoveListings(g: Grid, o: Id, p: Vec)
    requires g.Valid() && o in g.positions
    ensures Listed(g.Move(o, p).cells) == Listed(g.cells)
  {
    var from, to := g.CellOf(g.positions[o]), g.CellOf(p);
    if from != to {
      RemoveListing(g, from, o);
      AppendListing(g.(cells := g.Unlist(from, o)), to, o);
    }
  }

  ghost function EnterCount(g: Grid, ops: seq<Op>, id: Id): nat
  {
    if ops == [] then 0
    else
      var front := ops[..|ops| - 1];
      EnterCount(g, front, id) + if Enters(Run(g, front), ops[|ops| - 1], id) then 1 else 0
  }

  ghost function LeaveCount(g: Grid, ops: seq<Op>, id: Id): nat
  {
    if ops == [] then 0
    else
      var front := ops[..|ops| - 1];
      LeaveCount(g, front, id) + if Leaves(Run(g, front), ops[|ops| - 1], id) then 1 else 0
  }

  lemma ApplyKeeps(g: Grid, op: Op)
    requires g.Valid()
    ensures Apply(g, op).Valid()
    ensures forall o :: g.CleanFor(o) && !(op.Enter? && op.id == o && o in g.positions) ==> Apply(g, op).CleanFor(o)
  {
    match op
    case Enter(id, p) => EnterKeeps(g, id, p);
    case Leave(id) => LeaveKeeps(g, id);
    case Move(id, p) => MoveKeeps(g, id, p);
  }

  lemma {:induction false} RunValid(g: Grid, ops: seq<Op>)
    requires g.Valid()
    ensures Run(g, ops).Valid()
    decreases |ops|
  {
    if ops != [] {
      RunValid(g, ops[..|ops| - 1]);
      ApplyKeeps(Run(g, ops[..|ops| - 1]), ops[|ops| - 1]);
    }
  }

  lemma {:induction false} RunTracks(g: Grid, ops: seq<Op>)
    ensures Run(g, ops).positions == Track(g.positions, ops)
    decreases |ops|
  {
    if ops != [] {
      RunTracks(g, ops[..|ops| - 1]);
      ApplyTracks(Run(g, ops[..|ops| - 1]), ops[|ops| - 1]);
    }
  }

  lemma ApplyTracks(g: Grid, op: Op)
    ensures Apply(g, op).positions == if op.Leave? then g.positions - {op.id} else g.positions[op.id := op.p]
  {
  }

  /** Over any history the listings of an id are its entries minus the departures that found it. */
  lemma {:induction false} ListingsConserved(g: Grid, ops: seq<Op>, id: Id)
    requires g.Valid()
    ensures Listed(Run(g, ops).cells)[id] + LeaveCount(g, ops, id) == Listed(g.cells)[id] + EnterCount(g, ops, id)
    decreases |ops|
  {
    if ops != [] {
      var front := ops[..|ops| - 1];
      ListingsConserved(g, front, id);
      RunValid(g, front);
      StepListings(Run(g, front), ops[|ops| - 1], id);
    }
  }

  // ---------- the index refines the scan over every history ----------

  /** No operation enters an id that is already present. */
  ghost predicate NoReentry(g: Grid, ops: seq<Op>) {
    forall i :: 0 <= i < |ops| && ops[i].Enter? ==> ops[i].id !in Track(g.positions, ops[..i])
  }

  lemma {:induction false} RunClean(g: Grid, ops: seq<Op>)
    requires g.Valid() && NoReentry(g, ops) && forall id :: g.CleanFor(id)
    ensures forall id :: Run(g, ops).CleanFor(id)
    decreases |ops|
  {
    if ops != [] {
      var front := ops[..|ops| - 1];
      assert forall i :: 0 <= i < |front| ==> front[i] == ops[i] && front[..i] == ops[..i];
      RunClean(g, front);
      RunValid(g, front);
      RunTracks(g, front);
      ApplyKeeps(Run(g, front), ops[|ops| - 1]);
    }
  }

  /** The stored positions within `r`, found by looking at every one. */
  ghost function ScanOf(m: map<Id, Vec>, c: Vec, r: real): set<Id> {
    set id | id in m && DistSq(m[id], c) <= r * r
  }

  /** After any history no stored id within reach is missed; without re-entry nothing else is reported. */
  lemma HistoryRefinesScan(cellSize: Size, radius: real, ops: seq<Op>, c: Vec, r: real)
    requires -New(cellSize, radius).Reach() <= r <= New(cellSize, radius).Reach()
    ensures ScanOf(Track(map[], ops), c, r) <= Run(New(cellSize, radius), ops).InRange(c, r)
    ensures NoReentry(New(cellSize, radius), ops) ==>
              Run(New(cellSize, radius), ops).InRange(c, r) == ScanOf(Track(map[], ops), c, r)
  {
    var g0 := New(cellSize, radius);
    var g := Run(g0, ops);
    RunValid(g0, ops);
    RunTracks(g0, ops);
    RangeIsScanPlusOrphans(g, c, r);
    assert ScanOf(Track(map[], ops), c, r) == g.Scan(c, r);
    if NoReentry(g0, ops) {
      RunClean(g0, ops);
      forall id ensures id in g.InRange(c, r) <==> id in g.Scan(c, r) { CleanRange(g, c, r, id); }
    }
  }

  // ---------- ids that are listed without a position ----------

  lemma {:induction false} ListedSomewhere(cells: map<Cell, seq<Id>>, id: Id)
    ensures id in Listed(cells) <==> exists k :: k in cells && id in cells[k]
    decreases |cells|
  {
    if cells != map[] {
      var j :| j in cells && Listed(cells) == multiset(cells[j]) + Listed(cells - {j});
      ListedSomewhere(cells - {j}, id);
      if k :| k in cells && id in cells[k] {
        if k != j { assert k in cells - {j} && (cells - {j})[k] == cells[k]; }
      }
    }
  }

  /** A point of a given cell. */
  function CornerOf(g: Grid, k: Cell): Vec {
    Vec(Scaled(k.x, g.cellSize), 0.0, Scaled(k.y, g.cellSize))
  }

  function Scaled(n: int, s: Size): real {
    n as real * s
  }

  lemma QuotientBack(x: real, n: int, s: Size)
    requires x == Scaled(n, s)
    ensures (x / s).Floor == n
  {
    var d := x / s;
    var e := d - n as real;
    assert d * s == x;
    assert e * s == 0.0;
    if e > 0.0 { MulPositive(e, s); } else if e < 0.0 { MulPositive(-e, s); }
    assert d == n as real;
  }

  lemma CornerInCell(g: Grid, k: Cell)
    ensures g.CellOf(CornerOf(g, k)) == k
  {
    var c := CornerOf(g, k);
    QuotientBack(c.x, k.x, g.cellSize);
    QuotientBack(c.z, k.y, g.cellSize);
  }

  lemma WideEnough(d: real)
    requires d >= 0.0
    ensures d <= (d + 1.0) * (d + 1.0)
  {
    MulNonNegative(d, d);
  }

  lemma DistanceIsPositive(p: Vec, q: Vec)
    ensures DistSq(p, q) >= 0.0
  {
    Square(p.x - q.x);
    Square(p.z - q.z);
  }

  lemma Square(a: real)
    ensures a * a >= 0.0
  {
    if a >= 0.0 { MulNonNegative(a, a); } else { MulNonNegative(-a, -a); }
  }

  lemma OrphanIsReported(g: Grid, id: Id, k: Cell) returns (c: Vec, r: real)
    requires id !in g.positions && g.cellRange >= 0 && k in g.cells && id in g.cells[k]
    ensures id in g.InRange(c, r)
  {
    c := CornerOf(g, k);
    CornerInCell(g, k);
    assert g.InWindow(k, c);
    assert id in g.Window(c);
    DistanceIsPositive(ORIGIN, c);
    r := DistSq(ORIGIN, c) + 1.0;
    WideEnough(DistSq(ORIGIN, c));
  }

  /** No query ever reports `id`. */
  ghost predicate NeverReported(g: Grid, id: Id) {
    forall c, r :: id !in g.InRange(c, r)
  }

  /** An id without a position is safe from every query exactly if no cell lists it. */
  lemma NeverReportedIff(g: Grid, id: Id)
    requires id !in g.positions && g.cellRange >= 0
    ensures NeverReported(g, id) <==> Listed(g.cells)[id] == 0
  {
    ListedSomewhere(g.cells, id);
    if id in Listed(g.cells) {
      var k :| k in g.cells && id in g.cells[k];
      var c, r := OrphanIsReported(g, id, k);
    } else {
      forall c, r ensures id !in g.InRange(c, r) { assert id !in g.Window(c); }
    }
  }

  /** A Leave hides an id for good exactly if it was listed once. */
  lemma LeaveHidesIff(g: Grid, id: Id)
    requires g.Valid() && g.cellRange >= 0
    ensures NeverReported(g.Leave(id), id) <==> Listed(g.cells)[id] == if id in g.positions then 1 else 0
  {
    StepListings(g, Leave(id), id);
    NeverReportedIff(g.Leave(id), id);
  }

  /** After any history: no query of any radius reports an id without a position if and only if each
      such id has left as often as it was entered.  (A negative cell range makes every window empty.) */
  lemma HistoryExactIff(cellSize: Size, radius: real, ops: seq<Op>)
    ensures var g0 := New(cellSize, radius);
            (forall id :: id !in Track(map[], ops) ==> NeverReported(Run(g0, ops), id))
            <==> (g0.cellRange < 0 || forall id :: id !in Track(map[], ops) ==> EnterCount(g0, ops, id) == LeaveCount(g0, ops, id))
  {
    var g0 := New(cellSize, radius);
    var g := Run(g0, ops);
    RunTracks(g0, ops);
    forall id | id !in g.positions
      ensures NeverReported(g, id) <==> g0.cellRange < 0 || EnterCount(g0, ops, id) == LeaveCount(g0, ops, id)
    {
      if g0.cellRange < 0 {
        forall c, r ensures id !in g.InRange(c, r) { assert id !in g.Window(c); }
      } else {
        NeverReportedIff(g, id);
        ListingsConserved(g0, ops, id);
      }
    }
  }

  /** Re-entry really costs exactness: entering twice and leaving once leaves a listing that a query
      around the origin reports although the id is stored nowhere. */
  lemma ReentryLeaksListing(id: Id, p: Vec, q: Vec)
    requires 0.0 <= p.x < 100.0 && 0.0 <= p.z < 100.0 && 0.0 <= q.x < 100.0 && 0.0 <= q.z < 100.0
    ensures var g := Run(New(100.0, 300.0), [Enter(id, p), Enter(id, q), Leave(id)]);
            id in g.InRange(ORIGIN, 300.0) && id !in g.Scan(ORIGIN, 300.0)
  {
    var g0 := New(100.0, 300.0);
    ThreeSteps(g0, Enter(id, p), Enter(id, q), Leave(id));
    FirstCell(g0, p);
    FirstCell(g0, q);
    LeftListed(g0, id, p, q);
    ListedAtOrigin(g0.Enter(id, p).Enter(id, q).Leave(id), id);
  }

  lemma LeftListed(g0: Grid, id: Id, p: Vec, q: Vec)
    requires g0.cells == map[] && g0.CellOf(p) == g0.CellOf(q) == Cell(0, 0)
    ensures var g := g0.Enter(id, p).Enter(id, q).Leave(id);
            g.At(Cell(0, 0)) == [id] && id !in g.positions
  {
    var k := Cell(0, 0);
    assert g0.Enter(id, p).At(k) == [id];
    assert g0.Enter(id, p).Enter(id, q).At(k) == [id, id];
    assert RemoveFirst([id, id], id) == [id];
  }

  lemma ListedAtOrigin(g: Grid, id: Id)
    requires g.cellSize == 100.0 && g.cellRange >= 0 && g.At(Cell(0, 0)) == [id] && id !in g.positions
    ensures id in g.InRange(ORIGIN, 300.0) && id !in g.Scan(ORIGIN, 300.0)
  {
    FirstCell(g, ORIGIN);
    var k := Cell(0, 0);
    assert k in g.cells && g.InWindow(k, ORIGIN) && id in g.cells[k];
    assert id in g.Window(ORIGIN);
  }

  lemma FirstCell(g: Grid, p: Vec)
    requires g.cellSize == 100.0 && 0.0 <= p.x < 100.0 && 0.0 <= p.z < 100.0
    ensures g.CellOf(p) == Cell(0, 0)
  {
  }

  lemma ThreeSteps(g: Grid, a: Op, b: Op, c: Op)
    ensures Run(g, [a, b, c]) == Apply(Apply(Apply(g, a), b), c)
  {
    assert [a, b, c][..2] == [a, b] && [a, b][..1] == [a] && [a][..0] == [];
    assert Run(g, [a]) == Apply(g, a);
    assert Run(g, [a, b]) == Apply(Apply(g, a), b);
  }

  // ---------- serialization ----------

  /** The record that is written: everything but the cells. */
  datatype Saved = Saved(cellSize: Size, radius: real, positions: map<Id, Vec>)

  function Save(g: Grid): Saved {
    Saved(g.cellSize, g.radius, g.positions)
  }

  /** Entering the saved positions one by one, in the order the map is iterated. */
  function Rebuild(s: Saved, order: seq<Id>): (g: Grid)
    requires forall id :: id in order ==> id in s.positions
    ensures g.cellSize == s.cellSize && g.radius == s.radius && g.cellRange == Ceil(s.radius / s.cellSize)
  {
    if order == [] then New(s.cellSize, s.radius)
    else
      var id := order[|order| - 1];
      Rebuild(s, order[..|order| - 1]).Enter(id, s.positions[id])
  }

  lemma {:induction false} RebuildPositions(s: Saved, order: seq<Id>)
    requires forall id :: id in order ==> id in s.positions
    ensures Rebuild(s, order).positions == map id | id in order :: s.positions[id]
    decreases |order|
  {
    if order != [] {
      var front, id := order[..|order| - 1], order[|order| - 1];
      RebuildPositions(s, front);
      assert order == front + [id];
    }
  }

  lemma {:induction false} RebuildClean(s: Saved, order: seq<Id>)
    requires forall id :: id in order ==> id in s.positions
    requires forall i, j :: 0 <= i < j < |order| ==> order[i] != order[j]
    ensures Rebuild(s, order).Valid() && forall id :: Rebuild(s, order).CleanFor(id)
    decreases |order|
  {
    if order != [] {
      var front, id := order[..|order| - 1], order[|order| - 1];
      RebuildClean(s, front);
      RebuildPositions(s, front);
      assert id !in front;
      EnterKeeps(Rebuild(s, front), id, s.positions[id]);
    }
  }

  /** For every grid and every map order the restored grid lists each id once, in its own cell, and
      answers every query within reach as a scan of the original positions would. */
  lemma RestoredGridIsExact(g: Grid, order: seq<Id>, c: Vec, r: real)
    requires g.Valid() && Visits(order, g.positions.Keys) && -g.Reach() <= r <= g.Reach()
    ensures var h := Rebuild(Save(g), order);
            && h.Valid() && h.positions == g.positions && h.Reach() == g.Reach()
            && (forall id :: h.CleanFor(id))
            && h.InRange(c, r) == g.Scan(c, r)
  {
    RebuildAll(Save(g), order);
    RestoredRange(g, Rebuild(Save(g), order), c, r);
  }

  lemma RebuildAll(s: Saved, order: seq<Id>)
    requires Visits(order, s.positions.Keys)
    ensures var h := Rebuild(s, order);
            h.Valid() && h.positions == s.positions && forall id :: h.CleanFor(id)
  {
    RebuildClean(s, order);
    RebuildPositions(s, order);
    assert (map id | id in order :: s.positions[id]) == s.positions;
  }

  lemma RestoredRange(g: Grid, h: Grid, c: Vec, r: real)
    requires h.Valid() && h.positions == g.positions && h.cellSize == g.cellSize && h.cellRange == g.cellRange
    requires -g.Reach() <= r <= g.Reach() && forall id :: h.CleanFor(id)
    ensures h.InRange(c, r) == g.Scan(c, r) && h.Reach() == g.Reach()
  {
    forall id ensures id in h.InRange(c, r) <==> id in h.Scan(c, r) { CleanRange(h, c, r, id); }
  }
}
