/** The grid as the object the simulation holds, updated in place. */
module Aoi {
  import opened Ids
  import opened Grids
  import GridHistory

  /** `x` put at its place in a sorted list, as sort.Slice leaves it. */
  function InsertSorted(x: Id, s: seq<Id>): (r: seq<Id>)
    requires StrictlySorted(s) && x !in s
    ensures StrictlySorted(r) && forall y :: y in r <==> y == x || y in s
  {
    if s == [] then [x]
    else if Leq(x, s[0]) then
      assert forall i :: 0 <= i < |s| ==> Leq(x, s[i]) by {
        forall i | 0 <= i < |s| ensures Leq(x, s[i]) { if i > 0 { LeqTransitive(x, s[0], s[i]); } }
      }
      [x] + s
    else
      LeqTotal(x, s[0]);
      var t := InsertSorted(x, s[1..]);
      assert forall i :: 0 <= i < |t| ==> t[i] in t;
      assert forall y :: y in s[1..] ==> Leq(s[0], y) && y != s[0];
      [s[0]] + t
  }

  function SortIds(s: seq<Id>): (r: seq<Id>)
    requires forall i, j :: 0 <= i < j < |s| ==> s[i] != s[j]
    ensures StrictlySorted(r) && forall y :: y in r <==> y in s
  {
    if s == [] then [] else InsertSorted(s[0], SortIds(s[1..]))
  }

  /** Adds the unseen members of `ids` to the result. */
  method Collect(ids: seq<Id>, seen: set<Id>, result: seq<Id>) returns (seen': set<Id>, result': seq<Id>)
    requires Visits(result, seen)
    ensures seen' == seen + (set id | id in ids) && Visits(result', seen')
  {
    seen', result' := seen, result;
    for i := 0 to |ids|
      invariant seen' == seen + (set id | id in ids[..i])
      invariant Visits(result', seen')
    {
      assert ids[..i + 1] == ids[..i] + [ids[i]];
      if ids[i] !in seen' {
        seen' := seen' + {ids[i]};
        result' := result' + [ids[i]];
      }
    }
    assert ids[..|ids|] == ids;
  }

  /** The ids listed in the window of cells around `c`: increasing, without repetition. */
  method QueryCells(g: Grid, c: Vec) returns (result: seq<Id>)
    ensures SortedListing(result, g.Window(c))
  {
    var m := g.CellOf(c);
    var seen: set<Id> := {};
    result := [];
    var dx := -g.cellRange;
    while dx <= g.cellRange
      invariant dx <= g.cellRange ==> -g.cellRange <= dx
      invariant Visits(result, seen) && seen <= g.Window(c)
      invariant forall k :: k in g.cells && g.InWindow(k, c) && k.x < m.x + dx ==>
                              forall id :: id in g.cells[k] ==> id in seen
      decreases g.cellRange - dx
    {
      var dy := -g.cellRange;
      while dy <= g.cellRange
        invariant -g.cellRange <= dy
        invariant Visits(result, seen) && seen <= g.Window(c)
        invariant forall k :: k in g.cells && g.InWindow(k, c) &&
                              (k.x < m.x + dx || (k.x == m.x + dx && k.y < m.y + dy)) ==>
                                forall id :: id in g.cells[k] ==> id in seen
        decreases g.cellRange - dy
      {
        var k := Cell(m.x + dx, m.y + dy);
        assert g.InWindow(k, c);
        seen, result := Collect(g.At(k), seen, result);
        dy := dy + 1;
      }
      dx := dx + 1;
    }
    assert seen == g.Window(c);
    result := SortIds(result);
  }

  /** EntitiesInRange: the sorted listing of InRange. */
  method InRangeOf(g: Grid, c: Vec, r: real) returns (result: seq<Id>)
    ensures SortedListing(result, g.InRange(c, r))
    ensures forall id :: id in result <==>
              id in g.Window(c) && var p := g.PositionOf(id); (p.x - c.x) * (p.x - c.x) + (p.z - c.z) * (p.z - c.z) <= r * r
  {
    var all := QueryCells(g, c);
    result := [];
    for i := 0 to |all|
      invariant forall x :: x in result <==> x in all[..i] && DistSq(g.PositionOf(x), c) <= r * r
      invariant StrictlySorted(result)
      invariant forall x :: x in result ==> x in all[..i]
    {
      assert forall x :: x in all[..i] ==> Leq(x, all[i]) && x != all[i];
      assert all[..i + 1] == all[..i] + [all[i]];
      if DistSq(g.PositionOf(all[i]), c) <= r * r {
        assert forall j :: 0 <= j < |result| ==> result[j] in result;
        result := result + [all[i]];
      }
    }
    assert all[..|all|] == all;
  }

  class AOI {
    const cellSize: Size
    const radius: real
    const cellRange: int
    var cells: map<Cell, seq<Id>>
    var positions: map<Id, Vec>

    function State(): Grid
      reads this
    {
      Grid(cellSize, radius, cellRange, cells, positions)
    }

    constructor (cellSize: Size, radius: real)
      ensures State() == New(cellSize, radius)
    {
      this.cellSize, this.radius := cellSize, radius;
      cellRange := Ceil(radius / cellSize);
      cells, positions := map[], map[];
    }

    method Enter(id: Id, p: Vec)
      modifies this
      ensures State() == old(State()).Enter(id, p)
    {
      var k := State().CellOf(p);
      cells := cells[k := State().At(k) + [id]];
      positions := positions[id := p];
    }

    method Leave(id: Id)
      requires State().Valid()
      modifies this
      ensures State() == old(State()).Leave(id)
    {
      if id !in positions { return; }
      Unlist(State().CellOf(positions[id]), id);
      positions := positions - {id};
    }

    method Move(id: Id, p: Vec)
      requires State().Valid()
      modifies this
      ensures State() == old(State()).Move(id, p)
    {
      if id !in positions {
        Enter(id, p);
        return;
      }
      var from, to := State().CellOf(positions[id]), State().CellOf(p);
      if from == to {
        positions := positions[id := p];
        return;
      }
      Unlist(from, id);
      cells := cells[to := State().At(to) + [id]];
      positions := positions[id := p];
    }

    /** The loop Leave and Move share: find the first listing in the cell and cut it out. */
    method Unlist(k: Cell, id: Id)
      modifies this`cells
      ensures cells == old(State()).Unlist(k, id)
    {
      var ids := State().At(k);
      var i := 0;
      while i < |ids|
        invariant 0 <= i <= |ids| && id !in ids[..i]
        invariant cells == old(cells)
      {
        if ids[i] == id {
          CutFirst(ids, id, i);
          cells := cells[k := ids[..i] + ids[i + 1..]];
          return;
        }
        i := i + 1;
      }
      assert ids == ids[..i];
    }

    static lemma {:induction false} CutAfter(pre: seq<Id>, id: Id, post: seq<Id>)
      requires id !in pre
      ensures RemoveFirst(pre + ([id] + post), id) == pre + post
      decreases |pre|
    {
      var ids := pre + ([id] + post);
      if pre == [] {
        assert ids[1..] == post;
      } else {
        assert ids[1..] == pre[1..] + ([id] + post);
        CutAfter(pre[1..], id, post);
        assert pre + post == [pre[0]] + (pre[1..] + post);
      }
    }

    static lemma CutFirst(ids: seq<Id>, id: Id, i: nat)
      requires i < |ids| && ids[i] == id && id !in ids[..i]
      ensures RemoveFirst(ids, id) == ids[..i] + ids[i + 1..]
    {
      assert ids == ids[..i] + ([id] + ids[i + 1..]);
      CutAfter(ids[..i], id, ids[i + 1..]);
    }

    method Query(c: Vec) returns (result: seq<Id>)
      ensures SortedListing(result, State().Window(c))
    {
      result := QueryCells(State(), c);
    }

    method EntitiesInRange(c: Vec, r: real) returns (result: seq<Id>)
      ensures SortedListing(result, State().InRange(c, r))
      ensures forall id :: id in result <==>
                id in State().Window(c) && var p := State().PositionOf(id); (p.x - c.x) * (p.x - c.x) + (p.z - c.z) * (p.z - c.z) <= r * r
    {
      result := InRangeOf(State(), c, r);
    }

    /** `data` is None when the bytes do not decode. */
    static method Deserialize(cellSize: Size, radius: real, data: Option<GridHistory.Saved>)
      returns (a: AOI, ghost order: seq<Id>)
      ensures fresh(a)
      ensures data.None? ==> a.State() == New(cellSize, radius)
      ensures data.Some? ==> Visits(order, data.value.positions.Keys)
                             && a.State() == GridHistory.Rebuild(data.value, order)
    {
      order := [];
      if data.None? {
        a := new AOI(cellSize, radius);
        return;
      }
      var s := data.value;
      a := new AOI(s.cellSize, s.radius);
      var rest := s.positions.Keys;
      while rest != {}
        invariant rest <= s.positions.Keys && Visits(order, s.positions.Keys - rest)
        invariant fresh(a) && a.State() == GridHistory.Rebuild(s, order)
      {
        var id :| id in rest;
        a.Enter(id, s.positions[id]);
        assert (order + [id])[..|order|] == order;
        order := order + [id];
        rest := rest - {id};
      }
    }
  }
}
