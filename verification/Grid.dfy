/** The area-of-interest grid of internal/game/aoi: its state as a value, and what every
    sequence of Enter, Leave and Move keeps true of it. */
module Grids {
  import opened Ids

  /** Cell sizes are positive (the simulation always uses 100). */
  type Size = r: real | r > 0.0 witness 1.0

  /** A cell key. */
  datatype Cell = Cell(x: int, y: int)

  function Ceil(r: real): (n: int)
    ensures n as real >= r && (n - 1) as real < r
  {
    -(-r).Floor
  }

  /** `ids` without the first occurrence of `id`. */
  function RemoveFirst(ids: seq<Id>, id: Id): (r: seq<Id>)
    ensures multiset(r) == multiset(ids) - multiset{id}
  {
    if ids == [] then []
    else if ids[0] == id then
      assert ids == [id] + ids[1..]; ids[1..]
    else
      assert ids == [ids[0]] + ids[1..]; [ids[0]] + RemoveFirst(ids[1..], id)
  }

  datatype Grid = Grid(
    cellSize: Size,
    radius: real,
    cellRange: int,
    cells: map<Cell, seq<Id>>,
    positions: map<Id, Vec>)
  {
    /** The ids listed in a cell; a missing key reads as the empty slice. */
    function At(k: Cell): seq<Id> {
      if k in cells then cells[k] else []
    }

    /** How often `id` is listed in cell `k`. */
    ghost function Times(k: Cell, id: Id): nat {
      multiset(At(k))[id]
    }

    function CellOf(p: Vec): Cell {
      Cell((p.x / cellSize).Floor, (p.z / cellSize).Floor)
    }

    /** What every reachable grid satisfies: a positioned id is listed in the cell of its position. */
    ghost predicate Valid() {
      && cellRange == Ceil(radius / cellSize)
      && forall id :: id in positions ==> Times(CellOf(positions[id]), id) >= 1
    }

    /** `id` is listed once, in its own cell, if it has a position, and nowhere otherwise. */
    ghost predicate CleanFor(id: Id) {
      forall k :: Times(k, id) == if id in positions && k == CellOf(positions[id]) then 1 else 0
    }

    // ---------- the three updates ----------

    function Enter(id: Id, p: Vec): Grid {
      var k := CellOf(p);
      this.(cells := cells[k := At(k) + [id]], positions := positions[id := p])
    }

    function Leave(id: Id): Grid {
      if id !in positions then this
      else
        var k := CellOf(positions[id]);
        this.(cells := Unlist(k, id), positions := positions - {id})
    }

    function Move(id: Id, p: Vec): Grid {
      if id !in positions then Enter(id, p)
      else
        var from := CellOf(positions[id]);
        var to := CellOf(p);
        if from == to then this.(positions := positions[id := p])
        else
          var g := this.(cells := Unlist(from, id));
          g.(cells := g.cells[to := g.At(to) + [id]], positions := positions[id := p])
    }

    /** The cells after dropping the first listing of `id` in cell `k`; untouched if there is none. */
    function Unlist(k: Cell, id: Id): map<Cell, seq<Id>> {
      if id in At(k) then cells[k := RemoveFirst(At(k), id)] else cells
    }

    // ---------- queries ----------

    predicate InWindow(k: Cell, c: Vec) {
      var m := CellOf(c);
      m.x - cellRange <= k.x <= m.x + cellRange && m.y - cellRange <= k.y <= m.y + cellRange
    }

    /** The ids listed in the square of cells around `c`. */
    ghost function Window(c: Vec): set<Id> {
      set k, id | k in cells && InWindow(k, c) && id in cells[k] :: id
    }

    /** The stored position, or the zero vector Go reads for an id without one. */
    function PositionOf(id: Id): Vec {
      if id in positions then positions[id] else ORIGIN
    }

    /** What EntitiesInRange answers, as a set. */
    ghost function InRange(c: Vec, r: real): set<Id> {
      set id | id in Window(c) && DistSq(PositionOf(id), c) <= r * r
    }

    /** The plain distance scan that the grid stands in for. */
    ghost function Scan(c: Vec, r: real): set<Id> {
      set id | id in positions && DistSq(positions[id], c) <= r * r
    }

    /** The largest radius the window of cells covers. */
    function Reach(): real {
      cellRange as real * cellSize
    }
  }

  function New(cellSize: Size, radius: real): (g: Grid)
    ensures g.Valid() && g.radius <= g.Reach()
  {
    var g := Grid(cellSize, radius, Ceil(radius / cellSize), map[], map[]);
    assert radius <= g.Reach() by { QuotientBound(radius, cellSize, g.cellRange as real); }
    g
  }

  // ---------- arithmetic of cells ----------

  lemma QuotientBound(a: real, s: real, n: real)
    requires s > 0.0 && a / s <= n
    ensures a <= n * s
  {
    assert a == (a / s) * s;
  }

  lemma MulPositive(x: real, y: real)
    requires x > 0.0 && y > 0.0
    ensures x * y > 0.0
  {
  }

  lemma MulNonNegative(x: real, y: real)
    requires x >= 0.0 && y >= 0.0
    ensures x * y >= 0.0
  {
  }

  lemma SquareBound(a: real, b: real)
    requires a * a <= b * b && b >= 0.0
    ensures -b <= a <= b
  {
    if a > b { SquareGrows(b, a); }
    if a < -b { SquareGrows(b, -a); }
  }

  lemma SquareGrows(a: real, b: real)
    requires 0.0 <= a < b
    ensures a * a < b * b
  {
    var d := b - a;
    MulPositive(d, b);
    MulNonNegative(d, a);
    assert b * b == d * b + d * a + a * a;
  }

  /** A point of the disc of radius `r` lies in the square of half-width `w`. */
  lemma DistanceBound(dx: real, dz: real, r: real, w: real)
    requires dx * dx + dz * dz <= r * r && -w <= r <= w
    ensures -w <= dx <= w && -w <= dz <= w
  {
    MulNonNegative(w - r, w + r);
    assert (w - r) * (w + r) == w * w - r * r;
    assert dx * dx >= 0.0 && dz * dz >= 0.0;
    SquareBound(dx, w);
    SquareBound(dz, w);
  }

  /** Coordinates at most `n` cells apart fall in cells at most `n` apart. */
  lemma FloorSpread(x: real, c: real, s: real, n: int)
    requires s > 0.0 && -(n as real * s) <= x - c <= n as real * s
    ensures -n <= (x / s).Floor - (c / s).Floor <= n
  {
    assert x / s - c / s == (x - c) / s;
    assert (x - c) / s <= n as real by { DivideBound(x - c, s, n as real); }
    assert (c - x) / s <= n as real by { DivideBound(c - x, s, n as real); }
    assert (c - x) / s == -((x - c) / s);
  }

  lemma DivideBound(a: real, s: real, n: real)
    requires s > 0.0 && a <= n * s
    ensures a / s <= n
  {
    var q := a / s;
    assert a == q * s;
    var d := q - n;
    assert q * s == d * s + n * s;
    if d > 0.0 { MulPositive(d, s); }
  }

  // ---------- what each update does to the listings ----------

  lemma EnterTimes(g: Grid, id: Id, p: Vec, k: Cell, o: Id)
    ensures g.Enter(id, p).Times(k, o) == g.Times(k, o) + if k == g.CellOf(p) && o == id then 1 else 0
  {
  }

  lemma UnlistTimes(g: Grid, at: Cell, id: Id, k: Cell, o: Id)
    ensures g.(cells := g.Unlist(at, id)).Times(k, o)
         == g.Times(k, o) - if k == at && o == id && g.Times(at, id) > 0 then 1 else 0
  {
  }

  lemma LeaveTimes(g: Grid, id: Id, k: Cell, o: Id)
    requires g.Valid()
    ensures g.Leave(id).Times(k, o)
         == g.Times(k, o) - if id in g.positions && o == id && k == g.CellOf(g.positions[id]) then 1 else 0
  {
    if id in g.positions { UnlistTimes(g, g.CellOf(g.positions[id]), id, k, o); }
  }

  lemma RelistTimes(g: Grid, from: Cell, to: Cell, id: Id, k: Cell, o: Id)
    requires from != to && g.Times(from, id) >= 1
    ensures var h := g.(cells := g.Unlist(from, id));
            h.(cells := h.cells[to := h.At(to) + [id]]).Times(k, o) ==
            g.Times(k, o) - (if o == id && k == from then 1 else 0) + (if o == id && k == to then 1 else 0)
  {
    UnlistTimes(g, from, id, k, o);
  }

  lemma MoveTimes(g: Grid, id: Id, p: Vec, k: Cell, o: Id)
    requires g.Valid()
    ensures g.Move(id, p).Times(k, o)
         == g.Times(k, o)
            - (if id in g.positions && o == id && k == g.CellOf(g.positions[id]) then 1 else 0)
            + (if o == id && k == g.CellOf(p) then 1 else 0)
  {
    if id in g.positions && g.CellOf(g.positions[id]) != g.CellOf(p) {
      RelistTimes(g, g.CellOf(g.positions[id]), g.CellOf(p), id, k, o);
    }
  }

  // ---------- validity and cleanness are kept ----------

  lemma EnterKeepsOne(g: Grid, id: Id, p: Vec, o: Id)
    requires g.Valid()
    ensures var h := g.Enter(id, p);
            && (o in h.positions ==> h.Times(h.CellOf(h.positions[o]), o) >= 1)
            && (g.CleanFor(o) && (o == id ==> id !in g.positions) ==> h.CleanFor(o))
  {
    var h := g.Enter(id, p);
    forall k ensures h.Times(k, o) == g.Times(k, o) + if k == g.CellOf(p) && o == id then 1 else 0 {
      EnterTimes(g, id, p, k, o);
    }
  }

  lemma EnterKeeps(g: Grid, id: Id, p: Vec)
    requires g.Valid()
    ensures g.Enter(id, p).Valid()
    ensures forall o :: g.CleanFor(o) && (o == id ==> id !in g.positions) ==> g.Enter(id, p).CleanFor(o)
  {
    forall o ensures var h := g.Enter(id, p);
                     && (o in h.positions ==> h.Times(h.CellOf(h.positions[o]), o) >= 1)
                     && (g.CleanFor(o) && (o == id ==> id !in g.positions) ==> h.CleanFor(o)) {
      EnterKeepsOne(g, id, p, o);
    }
  }

  lemma LeaveKeepsOne(g: Grid, id: Id, o: Id)
    requires g.Valid()
    ensures var h := g.Leave(id);
            && (o in h.positions ==> h.Times(h.CellOf(h.positions[o]), o) >= 1)
            && (g.CleanFor(o) ==> h.CleanFor(o))
  {
    var h := g.Leave(id);
    forall k ensures h.Times(k, o)
                  == g.Times(k, o) - if id in g.positions && o == id && k == g.CellOf(g.positions[id]) then 1 else 0 {
      LeaveTimes(g, id, k, o);
    }
  }

  lemma LeaveKeeps(g: Grid, id: Id)
    requires g.Valid()
    ensures g.Leave(id).Valid()
    ensures forall o :: g.CleanFor(o) ==> g.Leave(id).CleanFor(o)
  {
    forall o ensures var h := g.Leave(id);
                     && (o in h.positions ==> h.Times(h.CellOf(h.positions[o]), o) >= 1)
                     && (g.CleanFor(o) ==> h.CleanFor(o)) {
      LeaveKeepsOne(g, id, o);
    }
  }

  lemma MoveKeepsOther(g: Grid, id: Id, p: Vec, o: Id)
    requires g.Valid() && o != id
    ensures var h := g.Move(id, p);
            && (o in h.positions ==> h.Times(h.CellOf(h.positions[o]), o) >= 1)
            && (g.CleanFor(o) ==> h.CleanFor(o))
  {
    var h := g.Move(id, p);
    forall k ensures h.Times(k, o) == g.Times(k, o) { MoveTimes(g, id, p, k, o); }
  }

  lemma MoveKeepsSelf(g: Grid, id: Id, p: Vec)
    requires g.Valid()
    ensures var h := g.Move(id, p);
            && h.Times(h.CellOf(p), id) >= 1
            && (g.CleanFor(id) ==> h.CleanFor(id))
  {
    var h := g.Move(id, p);
    MoveTimes(g, id, p, g.CellOf(p), id);
    if g.CleanFor(id) {
      forall k ensures h.Times(k, id) == if k == g.CellOf(p) then 1 else 0 { MoveTimes(g, id, p, k, id); }
    }
  }

  lemma MoveKeeps(g: Grid, id: Id, p: Vec)
    requires g.Valid()
    ensures g.Move(id, p).Valid()
    ensures forall o :: g.CleanFor(o) ==> g.Move(id, p).CleanFor(o)
  {
    forall o ensures var h := g.Move(id, p);
                     && (o in h.positions ==> h.Times(h.CellOf(h.positions[o]), o) >= 1)
                     && (g.CleanFor(o) ==> h.CleanFor(o)) {
      if o == id { MoveKeepsSelf(g, id, p); } else { MoveKeepsOther(g, id, p, o); }
    }
  }

  // ---------- the index refines the scan ----------

  /** Every stored id within the reach of the window lies in the window. */
  lemma WindowCovers(g: Grid, c: Vec, r: real, id: Id)
    requires g.Valid() && -g.Reach() <= r <= g.Reach()
    requires id in g.Scan(c, r)
    ensures id in g.Window(c)
  {
    var p := g.positions[id];
    DistanceBound(p.x - c.x, p.z - c.z, r, g.Reach());
    FloorSpread(p.x, c.x, g.cellSize, g.cellRange);
    FloorSpread(p.z, c.z, g.cellSize, g.cellRange);
    assert id in g.At(g.CellOf(p));
  }

  /** A stored id is reported if and only if it is in range. */
  lemma PositionedRange(g: Grid, c: Vec, r: real, id: Id)
    requires g.Valid() && -g.Reach() <= r <= g.Reach() && id in g.positions
    ensures id in g.InRange(c, r) <==> DistSq(g.positions[id], c) <= r * r
  {
    if id in g.Scan(c, r) { WindowCovers(g, c, r, id); }
  }

  /** EntitiesInRange is the distance scan, plus, when the origin itself is in range, the listed
      ids of the window that have no position any more. */
  lemma RangeIsScanPlusOrphans(g: Grid, c: Vec, r: real)
    requires g.Valid() && -g.Reach() <= r <= g.Reach()
    ensures g.InRange(c, r)
         == g.Scan(c, r) + if DistSq(ORIGIN, c) <= r * r then g.Window(c) - g.positions.Keys else {}
  {
    forall id | id in g.Scan(c, r) ensures id in g.InRange(c, r) { WindowCovers(g, c, r, id); }
  }

  /** The exact condition under which the answer is the scan. */
  lemma RangeExactIff(g: Grid, c: Vec, r: real)
    requires g.Valid() && -g.Reach() <= r <= g.Reach()
    ensures g.InRange(c, r) == g.Scan(c, r)
       <==> (DistSq(ORIGIN, c) > r * r || forall id :: id in g.Window(c) ==> id in g.positions)
  {
    RangeIsScanPlusOrphans(g, c, r);
    assert forall id :: id in g.Window(c) && id !in g.positions && DistSq(ORIGIN, c) <= r * r ==> id in g.InRange(c, r);
  }

  /** For one id, cleanness alone makes the answer exact. */
  lemma CleanRange(g: Grid, c: Vec, r: real, id: Id)
    requires g.Valid() && -g.Reach() <= r <= g.Reach() && g.CleanFor(id)
    ensures id in g.InRange(c, r) <==> id in g.Scan(c, r)
  {
    RangeIsScanPlusOrphans(g, c, r);
    assert forall k :: k in g.cells && id in g.cells[k] ==> g.Times(k, id) > 0;
  }

  /** Past its reach the window misses ids: the bound on the radius cannot be dropped. */
  lemma ReachIsTight(g: Grid, id: Id, r: real)
    requires g.Valid() && g.cells == map[] && g.positions == map[] && 0.0 <= g.Reach() < r
    ensures exists p: Vec :: id in g.Enter(id, p).Scan(ORIGIN, r) && id !in g.Enter(id, p).InRange(ORIGIN, r)
  {
    var p := Vec(-r, 0.0, 0.0);
    var h := g.Enter(id, p);
    assert DistSq(p, ORIGIN) == r * r;
    assert id in h.Scan(ORIGIN, r);
    BeyondReach(r, g.cellSize, g.cellRange);
    assert forall k :: k in h.cells ==> k == g.CellOf(p);
    assert id !in h.Window(ORIGIN);
  }

  lemma BeyondReach(r: real, s: Size, n: int)
    requires n as real * s < r
    ensures (0.0 / s).Floor == 0 && (-r / s).Floor < -n
  {
    var q := r / s;
    assert -r / s == -q;
    if q <= n as real { QuotientBound(r, s, n as real); }
  }
}
