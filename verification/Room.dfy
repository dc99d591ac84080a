/** The room service over the two tables: LookupZone run alone. */
module Room {
  import opened Ids
  import opened Nodes
  import opened Repos
  import L = Lookups

  /** `steps` is a run of the lookup protocol from `d` to `e`. */
  ghost predicate Ran(d: L.Db, steps: seq<L.Op>, e: L.Db) {
    L.AllEnabled(d, steps) && L.Run(d, steps) == e
  }

  lemma RanOn(d: L.Db, steps: seq<L.Op>, e: L.Db, op: L.Op, f: L.Db)
    requires Ran(d, steps, e) && L.Enabled(e, op) && L.Step(e, op) == f
    ensures Ran(d, steps + [op], f)
  {
    L.Then(e, op, f, []);
    assert [op] + [] == [op];
    L.RunOn(d, steps, [op]);
  }

  lemma ChooseRan(d: L.Db, before: seq<L.Op>, e: L.Db, z: ZoneId, nodes: seq<Candidate>, best: Option<Node>)
    requires Ran(d, before, e) && e.calls == map[0 := L.Call(z, L.Unplaced)] && ListsActive(e.rows, nodes) && IsChoice(nodes, best)
    ensures Ran(d, before + [L.Choose(0, nodes, best)], e.(calls := map[0 := L.Call(z, if best.None? then L.Failed else L.Chosen(best.value.id))]))
    ensures best.None? ==> forall id :: !IsActive(e.rows, id)
    ensures best.Some? ==> IsActive(e.rows, best.value.id) && best.value == NodeOf(best.value.id, e.rows[best.value.id])
  {
    ListedNodesAlwaysAccept(e.rows, nodes, best);
    var f := e.Put(0, if best.None? then L.Failed else L.Chosen(best.value.id));
    assert f.calls == map[0 := L.Call(z, if best.None? then L.Failed else L.Chosen(best.value.id))];
    RanOn(d, before, e, L.Choose(0, nodes, best), f);
  }

  /** Whether a claim for a known server succeeds, by the row it finds. */
  predicate ClaimSucceeds(owner: Owners, z: ZoneId, server: ServerId) {
    z in owner && (owner[z].None? || owner[z].value in ["", server])
  }

  function ClaimSteps(owner: Owners, z: ZoneId): seq<L.Op> {
    if Unowned(owner, z) then [L.Update(0)] else [L.Update(0), L.Explain(0)]
  }

  lemma ClaimRan(d: L.Db, before: seq<L.Op>, e: L.Db, z: ZoneId, server: ServerId)
    requires Ran(d, before, e) && e.calls == map[0 := L.Call(z, L.Chosen(server))] && server in e.rows
    ensures Ran(d, before + ClaimSteps(e.owner, z),
                L.Db(ClaimRow(e.owner, z, server), e.rows, map[0 := L.Call(z, if ClaimSucceeds(e.owner, z, server) then L.Answered(server) else L.Failed)]))
  {
    var f := L.Claiming(e, 0, server);
    RanOn(d, before, e, L.Update(0), f);
    if Unowned(e.owner, z) {
      assert f.calls == map[0 := L.Call(z, L.Answered(server))];
    } else {
      var g := f.Put(0, L.Explaining(f, 0, server));
      assert g.calls == map[0 := L.Call(z, if ClaimSucceeds(e.owner, z, server) then L.Answered(server) else L.Failed)];
      RanOn(d, before + [L.Update(0)], f, L.Explain(0), g);
      assert before + [L.Update(0)] + [L.Explain(0)] == before + ClaimSteps(e.owner, z);
    }
  }

  /** What the claiming half may do to the owners, and when it fails. */
  ghost predicate PlacedBy(was: Owners, rows: Servers, z: ZoneId, now: Owners, r: Result<Node>) {
    && (r.Ok? ==> IsActive(rows, r.value.id) && ClaimSucceeds(was, z, r.value.id) && now == ClaimRow(was, z, r.value.id))
    && (r.Err? ==> now == was && ((r.error == Unavailable && forall id :: !IsActive(rows, id))
                                  || (r.error == Store && exists id :: IsActive(rows, id) && !ClaimSucceeds(was, z, id))))
  }

  /** An unowned zone is placed if and only if some server is active. */
  lemma UnownedIsPlaced(was: Owners, rows: Servers, z: ZoneId, now: Owners, r: Result<Node>)
    requires Unowned(was, z) && PlacedBy(was, rows, z, now, r)
    ensures r.Ok? <==> exists id :: id in rows && rows[id].status == Active
    ensures r.Ok? ==> r.value.id in rows && rows[r.value.id].status == Active && now == was[z := Some(r.value.id)]
  {
    if r.Ok? { assert rows[r.value.id].status == Active; }
    if id :| id in rows && rows[id].status == Active { assert IsActive(rows, id); }
  }

  class RoomServer {
    const servers: ServerRepository
    const zones: ZoneRepository

    constructor (servers: ServerRepository, zones: ZoneRepository)
      ensures this.servers == servers && this.zones == zones
    {
      this.servers, this.zones := servers, zones;
    }

    /** One call: the steps it takes are a run of the protocol, so everything proved of interleaved
        calls is proved of this code. */
    method LookupZone(z: ZoneId) returns (r: Result<Node>, ghost steps: seq<L.Op>)
      requires servers.pool == zones.pool
      modifies zones.pool`owner
      ensures Ran(L.Db(old(zones.pool.owner), zones.pool.rows, map[]), steps,
                  L.Db(zones.pool.owner, zones.pool.rows, map[0 := L.Call(z, if r.Ok? then L.Answered(r.value.id) else L.Failed)]))
      ensures r.Ok? ==> Describes(r.value, zones.pool.rows)
      ensures z in old(zones.pool.owner) && old(zones.pool.owner)[z].Some? && old(zones.pool.owner)[z].value != ""
              && old(zones.pool.owner)[z].value in zones.pool.rows ==>
                r.Ok? && Some(r.value.id) == old(zones.pool.owner)[z] && zones.pool.owner == old(zones.pool.owner)
      ensures z in old(zones.pool.owner) && old(zones.pool.owner)[z].None? ==>
                && (r.Ok? <==> exists id :: id in zones.pool.rows && zones.pool.rows[id].status == Active)
                && (r.Ok? ==> zones.pool.rows[r.value.id].status == Active && zones.pool.owner == old(zones.pool.owner)[z := Some(r.value.id)])
      ensures var owned := NamedOwner(old(zones.pool.owner), z);
              if owned.Some? && owned.value in zones.pool.rows then r.Ok? && r.value.id == owned.value && zones.pool.owner == old(zones.pool.owner)
              else PlacedBy(old(zones.pool.owner), zones.pool.rows, z, zones.pool.owner, r)
      ensures old(zones.pool.Referenced()) ==> zones.pool.Referenced()
      ensures old(zones.pool.Referenced()) && NamedOwner(old(zones.pool.owner), z).Some? ==>
                r.Ok? && r.value.id == NamedOwner(old(zones.pool.owner), z).value && zones.pool.owner == old(zones.pool.owner)
    {
      ghost var pool := zones.pool;
      ghost var d := L.Db(pool.owner, pool.rows, map[]);
      ghost var e := d.(calls := map[0 := L.Call(z, L.Called)]);
      steps := [];
      RanOn(d, steps, d, L.Begin(0, z), e);
      steps := steps + [L.Begin(0, z)];
      var found := zones.Lookup(z);
      ghost var f := e.Put(0, if found.Ok? then L.Found(found.value) else L.Unplaced);
      RanOn(d, steps, e, L.ReadOwner(0), f);
      steps := steps + [L.ReadOwner(0)];
      if found.Ok? {
        var info := servers.Get(found.value);
        if info.Ok? {
          RanOn(d, steps, f, L.ReadServer(0), f.Put(0, L.Answered(found.value)));
          return Ok(info.value), steps + [L.ReadServer(0)];
        }
        RanOn(d, steps, f, L.ReadServer(0), f.Put(0, L.Unplaced));
        steps := steps + [L.ReadServer(0)];
      }
      r, steps := Place(z, d, steps);
      if Unowned(old(zones.pool.owner), z) { UnownedIsPlaced(old(zones.pool.owner), pool.rows, z, pool.owner, r); }
    }

    /** The claiming half. */
    method Place(z: ZoneId, ghost d: L.Db, ghost before: seq<L.Op>) returns (r: Result<Node>, ghost steps: seq<L.Op>)
      requires servers.pool == zones.pool
      requires Ran(d, before, L.Db(zones.pool.owner, zones.pool.rows, map[0 := L.Call(z, L.Unplaced)]))
      modifies zones.pool`owner
      ensures Ran(d, steps, L.Db(zones.pool.owner, zones.pool.rows, map[0 := L.Call(z, if r.Ok? then L.Answered(r.value.id) else L.Failed)]))
      ensures r.Ok? ==> Describes(r.value, zones.pool.rows)
      ensures PlacedBy(old(zones.pool.owner), zones.pool.rows, z, zones.pool.owner, r)
      ensures old(zones.pool.Referenced()) ==> zones.pool.Referenced()
    {
      ghost var e := L.Db(zones.pool.owner, zones.pool.rows, map[0 := L.Call(z, L.Unplaced)]);
      var nodes := servers.List();
      var best := Select(nodes);
      ChooseRan(d, before, e, z, nodes, best);
      steps := before + [L.Choose(0, nodes, best)];
      if best.None? { return Err(Unavailable), steps; }
      ClaimRan(d, steps, e.(calls := map[0 := L.Call(z, L.Chosen(best.value.id))]), z, best.value.id);
      steps := steps + ClaimSteps(e.owner, z);
      var claimed := zones.Claim(z, best.value.id);
      r := if claimed.Ok? then Ok(best.value) else Err(Store);
    }
  }
}
