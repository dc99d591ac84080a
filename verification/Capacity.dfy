/** How many zones a server is given, against the limit it declares. */
module Capacity {
  import opened Ids
  import opened Nodes
  import opened Repos
  import opened Lookups

  function Owned(owner: Owners, server: ServerId): set<ZoneId> {
    set z | z in owner && owner[z] == Some(server)
  }

  predicate Full(owner: Owners, rows: Servers, server: ServerId) {
    server in rows && rows[server].maxZones > 0 && |Owned(owner, server)| >= rows[server].maxZones
  }

  predicate Overloaded(owner: Owners, rows: Servers, server: ServerId) {
    server in rows && rows[server].maxZones > 0 && |Owned(owner, server)| > rows[server].maxZones
  }

  lemma ClaimAddsOne(owner: Owners, z: ZoneId, server: ServerId)
    requires Unowned(owner, z)
    ensures |Owned(ClaimRow(owner, z, server), server)| == |Owned(owner, server)| + 1
  {
    assert Owned(ClaimRow(owner, z, server), server) == Owned(owner, server) + {z};
  }

  /** Placing a zone takes its server over the limit if and only if the first listed server is full
      already: the allocator is never told how many zones a server owns. */
  lemma PlacementOverloadsIff(rows: Servers, owner: Owners, nodes: seq<Candidate>, best: Option<Node>, z: ZoneId)
    requires ListsActive(rows, nodes) && IsChoice(nodes, best) && best.Some? && Unowned(owner, z)
    ensures nodes != [] && nodes[0].Some?
    ensures Overloaded(ClaimRow(owner, z, best.value.id), rows, best.value.id) <==> Full(owner, rows, nodes[0].value.id)
  {
    ListedNodesAlwaysAccept(rows, nodes, best);
    ClaimAddsOne(owner, z, best.value.id);
  }

  /** With true zone counts in the list the same allocator never takes a server over its limit. */
  lemma TrueLoadNeverOverloads(rows: Servers, owner: Owners, nodes: seq<Candidate>, best: Option<Node>, z: ZoneId)
    requires forall i :: 0 <= i < |nodes| ==> nodes[i].Some? && var n := nodes[i].value;
                           n.id in rows && n.maxZones == rows[n.id].maxZones && n.zoneCount == |Owned(owner, n.id)|
    requires IsChoice(nodes, best) && best.Some? && Unowned(owner, z)
    ensures !Overloaded(ClaimRow(owner, z, best.value.id), rows, best.value.id)
  {
    var i :| Best(nodes, |nodes|, i) && nodes[i] == best;
    ClaimAddsOne(owner, z, best.value.id);
  }

  function OneServer(a: ServerId, row: Row, c: nat): Op {
    Choose(c, [Some(NodeOf(a, row))], Some(NodeOf(a, row)))
  }

  /** The failing input: one active server that allows one zone and owns one is given a second. */
  lemma FullServerGetsAnother(y: ZoneId, z: ZoneId, a: ServerId, row: Row)
    requires y != z && row.status == Active && row.maxZones == 1
    ensures var d := Db(map[y := Some(a), z := None], map[a := row], map[]);
            var ops := [Begin(0, z)] + ([ReadOwner(0)] + ([OneServer(a, row, 0)] + ([Update(0)] + [])));
            && !Overloaded(d.owner, d.rows, a)
            && AllEnabled(d, ops) && Run(d, ops).calls == map[0 := Call(z, Answered(a))]
            && Overloaded(Run(d, ops).owner, d.rows, a)
  {
    var d := Db(map[y := Some(a), z := None], map[a := row], map[]);
    var d4 := Db(map[y := Some(a), z := Some(a)], d.rows, map[0 := Call(z, Answered(a))]);
    assert Owned(d.owner, a) == {y} && Owned(d4.owner, a) == {y, z};
    PlacedAgain(d, d4, y, z, a, row);
  }

  lemma PlacedAgain(d: Db, d4: Db, y: ZoneId, z: ZoneId, a: ServerId, row: Row)
    requires y != z && row.status == Active && d == Db(map[y := Some(a), z := None], map[a := row], map[])
    requires d4 == Db(map[y := Some(a), z := Some(a)], d.rows, map[0 := Call(z, Answered(a))])
    ensures var ops := [Begin(0, z)] + ([ReadOwner(0)] + ([OneServer(a, row, 0)] + ([Update(0)] + [])));
            AllEnabled(d, ops) && Run(d, ops) == d4
  {
    var d1, d2 := d.(calls := map[0 := Call(z, Called)]), d.(calls := map[0 := Call(z, Unplaced)]);
    ChosenAgain(d2, d4, y, z, a, row);
    Then(d1, ReadOwner(0), d2, [OneServer(a, row, 0)] + ([Update(0)] + []));
    Then(d, Begin(0, z), d1, [ReadOwner(0)] + ([OneServer(a, row, 0)] + ([Update(0)] + [])));
  }

  lemma ChosenAgain(d2: Db, d4: Db, y: ZoneId, z: ZoneId, a: ServerId, row: Row)
    requires y != z && row.status == Active
    requires d2 == Db(map[y := Some(a), z := None], map[a := row], map[0 := Call(z, Unplaced)])
    requires d4 == Db(map[y := Some(a), z := Some(a)], d2.rows, map[0 := Call(z, Answered(a))])
    ensures AllEnabled(d2, [OneServer(a, row, 0)] + ([Update(0)] + [])) && Run(d2, [OneServer(a, row, 0)] + ([Update(0)] + [])) == d4
  {
    var d3 := d2.(calls := map[0 := Call(z, Chosen(a))]);
    ChosenStep(d2, z, a, row);
    UpdatedStep(d3, y, z, a);
    Then(d3, Update(0), d4, []);
    Then(d2, OneServer(a, row, 0), d3, [Update(0)] + []);
  }

  lemma ChosenStep(d: Db, z: ZoneId, a: ServerId, row: Row)
    requires row.status == Active && d.rows == map[a := row] && d.calls == map[0 := Call(z, Unplaced)]
    ensures Enabled(d, OneServer(a, row, 0)) && Step(d, OneServer(a, row, 0)) == d.(calls := map[0 := Call(z, Chosen(a))])
  {
    OnlyNode(a, row);
  }

  lemma UpdatedStep(d: Db, y: ZoneId, z: ZoneId, a: ServerId)
    requires y != z && a in d.rows && d.owner == map[y := Some(a), z := None] && d.calls == map[0 := Call(z, Chosen(a))]
    ensures Enabled(d, Update(0))
    ensures Step(d, Update(0)) == Db(map[y := Some(a), z := Some(a)], d.rows, map[0 := Call(z, Answered(a))])
  {
  }

  lemma OnlyNode(a: ServerId, row: Row)
    requires row.status == Active
    ensures ListsActive(map[a := row], [Some(NodeOf(a, row))]) && IsChoice([Some(NodeOf(a, row))], Some(NodeOf(a, row)))
  {
    var nodes := [Some(NodeOf(a, row))];
    assert nodes[0] == Some(NodeOf(a, row)) && Best(nodes, 1, 0);
  }
}
