/** The two tables of the room service and the repositories over them. */
module Repos {
  import opened Ids
  import opened Nodes

  datatype Row = Row(host: string, port: int, status: Status, maxZones: int, lastHeartbeat: int)

  /** The server_id column by zone; None is NULL. */
  type Owners = map<ZoneId, Option<ServerId>>

  type Servers = map<ServerId, Row>

  datatype Error = NotFound | Conflict | NotOwned | Unavailable | Store

  datatype Result<+T> = Ok(value: T) | Err(error: Error)

  // ---------- single statements ----------

  predicate Unowned(owner: Owners, z: ZoneId) {
    z in owner && owner[z].None?
  }

  predicate OwnedBy(owner: Owners, z: ZoneId, server: ServerId) {
    z in owner && owner[z] == Some(server)
  }

  /** The claiming update: it only hits a row whose owner is NULL. */
  function ClaimRow(owner: Owners, z: ZoneId, server: ServerId): Owners {
    if Unowned(owner, z) then owner[z := Some(server)] else owner
  }

  /** The releasing update: it only hits a row the server owns. */
  function ReleaseRow(owner: Owners, z: ZoneId, server: ServerId): Owners {
    if OwnedBy(owner, z, server) then owner[z := None] else owner
  }

  /** The insert that leaves an existing row alone. */
  function InsertRow(owner: Owners, z: ZoneId): Owners {
    if z in owner then owner else owner[z := None]
  }

  /** What deleting a server does to its zones, by the foreign key. */
  function Disown(owner: Owners, server: ServerId): Owners {
    map z | z in owner :: if owner[z] == Some(server) then None else owner[z]
  }

  /** The server a non-null, non-empty column names. */
  function NamedOwner(owner: Owners, z: ZoneId): Option<ServerId> {
    if z in owner && owner[z] != Some("") then owner[z] else None
  }

  // ---------- rows and nodes ----------

  predicate IsActive(rows: Servers, id: ServerId) {
    id in rows && rows[id].status == Active
  }

  predicate IsDead(rows: Servers, id: ServerId, now: int, since: int) {
    IsActive(rows, id) && rows[id].lastHeartbeat < now - since
  }

  /** A row read back as a node: the status is reported active and the load is not stored. */
  function NodeOf(id: ServerId, row: Row): Node {
    Node(id, row.host, row.port, row.maxZones, 0, 0, Active)
  }

  /** Node `n` is what the table says of its server, column by column. */
  predicate Describes(n: Node, rows: Servers) {
    && n.id in rows && n.host == rows[n.id].host && n.port == rows[n.id].port && n.maxZones == rows[n.id].maxZones
    && n.status == Active && n.zoneCount == 0 && n.activeEntities == 0
  }

  /** `nodes` is one answer to the query for the active servers. */
  ghost predicate ListsActive(rows: Servers, nodes: seq<Candidate>) {
    && (forall i :: 0 <= i < |nodes| ==> nodes[i].Some? && IsActive(rows, nodes[i].value.id) && nodes[i].value == NodeOf(nodes[i].value.id, rows[nodes[i].value.id]))
    && (forall id :: IsActive(rows, id) ==> exists i :: 0 <= i < |nodes| && nodes[i] == Some(NodeOf(id, rows[id])))
    && forall i, j :: 0 <= i < j < |nodes| ==> nodes[i] != nodes[j]
  }

  /** Load is not stored, so every listed node accepts and the allocator takes the first: a declared
      capacity never turns a zone away. */
  lemma ListedNodesAlwaysAccept(rows: Servers, nodes: seq<Candidate>, best: Option<Node>)
    requires ListsActive(rows, nodes) && IsChoice(nodes, best)
    ensures best == if nodes == [] then None else nodes[0]
  {
    forall i | 0 <= i < |nodes| ensures Accepts(nodes[i]) && Score(nodes[i]) == 0.0 {
    }
    if nodes != [] {
      assert Best(nodes, |nodes|, 0);
      ChoiceUnique(nodes, best, nodes[0]);
    }
  }

  // ---------- the servers table over time ----------

  /** One write to the servers table. */
  datatype Write = Registered(n: Node, now: int) | Beaten(id: ServerId, now: int) | ShutDown(id: ServerId) | Removed(id: ServerId)

  function Written(rows: Servers, op: Write): Servers {
    match op
    case Registered(n, now) =>
      rows[n.id := if n.id in rows then rows[n.id].(host := n.host, port := n.port, maxZones := n.maxZones)
                   else Row(n.host, n.port, n.status, n.maxZones, now)]
    case Beaten(id, now) => if id in rows then rows[id := rows[id].(status := Active, lastHeartbeat := now)] else rows
    case ShutDown(id) => if id in rows then rows[id := rows[id].(status := Stopped)] else rows
    case Removed(id) => rows - {id}
  }

  function WrittenAll(rows: Servers, ops: seq<Write>): Servers {
    if ops == [] then rows else Written(WrittenAll(rows, ops[..|ops| - 1]), ops[|ops| - 1])
  }

  /** The round trip of a registration: whatever heartbeats, shutdown marks, removals and registrations
      of others follow, a node read back under that id carries the registered address and limit, and it
      can be read back unless it was removed. */
  lemma {:induction false} RegisteredIsReadBack(rows: Servers, n: Node, now: int, ops: seq<Write>)
    requires forall op :: op in ops ==> !(op.Registered? && op.n.id == n.id)
    ensures var after := WrittenAll(Written(rows, Registered(n, now)), ops);
            && (forall m: Node :: m.id == n.id && Describes(m, after) ==> m.host == n.host && m.port == n.port && m.maxZones == n.maxZones)
            && (Removed(n.id) !in ops ==> n.id in after)
    decreases |ops|
  {
    if ops != [] {
      var front, op := ops[..|ops| - 1], ops[|ops| - 1];
      assert op in ops && forall o :: o in front ==> o in ops;
      RegisteredIsReadBack(rows, n, now, front);
      var before, after := WrittenAll(Written(rows, Registered(n, now)), front), WrittenAll(Written(rows, Registered(n, now)), ops);
      if n.id in after {
        assert n.id in before;
        assert Describes(NodeOf(n.id, before[n.id]), before);
      }
    }
  }

  /** The pool both repositories share. */
  class Pool {
    var rows: Servers
    var owner: Owners

    /** What the schema's foreign key guarantees. */
    ghost predicate Referenced()
      reads this
    {
      forall z :: z in owner && owner[z].Some? ==> owner[z].value in rows
    }
  }

  class ServerRepository {
    const pool: Pool

    constructor (pool: Pool)
      ensures this.pool == pool
    {
      this.pool := pool;
    }

    /** A server already known keeps its status and its last heartbeat. */
    method Register(n: Node, now: int)
      modifies pool`rows
      ensures n.id in pool.rows && pool.rows == old(pool.rows)[n.id := pool.rows[n.id]]
      ensures n.id !in old(pool.rows) ==> pool.rows[n.id] == Row(n.host, n.port, n.status, n.maxZones, now)
      ensures n.id in old(pool.rows) ==> pool.rows[n.id] == old(pool.rows)[n.id].(host := n.host, port := n.port, maxZones := n.maxZones)
      ensures old(pool.Referenced()) ==> pool.Referenced()
      ensures pool.rows == Written(old(pool.rows), Registered(n, now))
    {
      var row := if n.id in pool.rows then pool.rows[n.id].(host := n.host, port := n.port, maxZones := n.maxZones)
                 else Row(n.host, n.port, n.status, n.maxZones, now);
      pool.rows := pool.rows[n.id := row];
    }

    /** Also brings a server back that a sweep has marked. */
    method Heartbeat(id: ServerId, now: int) returns (r: Result<()>)
      modifies pool`rows
      ensures r == if id in old(pool.rows) then Ok(()) else Err(NotFound)
      ensures pool.rows == if r.Ok? then old(pool.rows)[id := old(pool.rows)[id].(status := Active, lastHeartbeat := now)] else old(pool.rows)
      ensures old(pool.Referenced()) ==> pool.Referenced()
      ensures pool.rows == Written(old(pool.rows), Beaten(id, now))
    {
      if id !in pool.rows { return Err(NotFound); }
      pool.rows := pool.rows[id := pool.rows[id].(status := Active, lastHeartbeat := now)];
      r := Ok(());
    }

    method Get(id: ServerId) returns (r: Result<Node>)
      ensures r == if id in pool.rows then Ok(NodeOf(id, pool.rows[id])) else Err(NotFound)
      ensures r.Ok? ==> r.value.id == id && Describes(r.value, pool.rows)
    {
      r := if id in pool.rows then Ok(NodeOf(id, pool.rows[id])) else Err(NotFound);
    }

    method List() returns (nodes: seq<Candidate>)
      ensures ListsActive(pool.rows, nodes)
      ensures forall i :: 0 <= i < |nodes| ==> nodes[i].Some? && Describes(nodes[i].value, pool.rows) && pool.rows[nodes[i].value.id].status == Active
      ensures forall id :: id in pool.rows && pool.rows[id].status == Active ==> exists i :: 0 <= i < |nodes| && nodes[i].Some? && nodes[i].value.id == id
    {
      nodes := [];
      var rest := pool.rows.Keys;
      while rest != {}
        invariant rest <= pool.rows.Keys
        invariant forall i :: 0 <= i < |nodes| ==> nodes[i].Some? && nodes[i].value.id !in rest && IsActive(pool.rows, nodes[i].value.id)
                                                   && nodes[i].value == NodeOf(nodes[i].value.id, pool.rows[nodes[i].value.id])
        invariant forall id :: IsActive(pool.rows, id) && id !in rest ==> exists i :: 0 <= i < |nodes| && nodes[i] == Some(NodeOf(id, pool.rows[id]))
        invariant forall i, j :: 0 <= i < j < |nodes| ==> nodes[i] != nodes[j]
      {
        var id :| id in rest;
        ghost var was := nodes;
        if pool.rows[id].status == Active { nodes := nodes + [Some(NodeOf(id, pool.rows[id]))]; }
        rest := rest - {id};
        forall x | IsActive(pool.rows, x) && x !in rest ensures exists i :: 0 <= i < |nodes| && nodes[i] == Some(NodeOf(x, pool.rows[x])) {
          if x == id {
            assert nodes[|was|] == Some(NodeOf(x, pool.rows[x]));
          } else {
            var i :| 0 <= i < |was| && was[i] == Some(NodeOf(x, pool.rows[x]));
            assert nodes[i] == was[i];
          }
        }
      }
      forall id | IsActive(pool.rows, id) ensures exists i :: 0 <= i < |nodes| && nodes[i].Some? && nodes[i].value.id == id {
        var i :| 0 <= i < |nodes| && nodes[i] == Some(NodeOf(id, pool.rows[id]));
        assert nodes[i].value.id == id;
      }
    }

    /** `since` in seconds, as the statement's interval has it. */
    method ListDead(now: int, since: int) returns (ids: seq<ServerId>)
      ensures Visits(ids, set id | id in pool.rows && IsDead(pool.rows, id, now, since))
    {
      ids := [];
      var rest := pool.rows.Keys;
      while rest != {}
        invariant rest <= pool.rows.Keys
        invariant forall id :: id in ids <==> id in pool.rows && id !in rest && IsDead(pool.rows, id, now, since)
        invariant forall i, j :: 0 <= i < j < |ids| ==> ids[i] != ids[j]
      {
        var id :| id in rest;
        if pool.rows[id].status == Active && pool.rows[id].lastHeartbeat < now - since { ids := ids + [id]; }
        rest := rest - {id};
      }
    }

    method MarkShutdown(id: ServerId)
      modifies pool`rows
      ensures pool.rows == if id in old(pool.rows) then old(pool.rows)[id := old(pool.rows)[id].(status := Stopped)] else old(pool.rows)
      ensures old(pool.Referenced()) ==> pool.Referenced()
      ensures pool.rows == Written(old(pool.rows), ShutDown(id))
    {
      if id in pool.rows { pool.rows := pool.rows[id := pool.rows[id].(status := Stopped)]; }
    }
  }

  class ZoneRepository {
    const pool: Pool

    constructor (pool: Pool)
      ensures this.pool == pool
    {
      this.pool := pool;
    }

    /** The UPDATE followed, when it hit no row, by the SELECT that says why. The foreign key refuses
        a server that has no row. */
    method Claim(z: ZoneId, server: ServerId) returns (r: Result<()>)
      modifies pool`owner
      ensures Unowned(old(pool.owner), z) ==> r == if server in pool.rows then Ok(()) else Err(Store)
      ensures z !in old(pool.owner) ==> r == Err(NotFound)
      ensures z in old(pool.owner) && old(pool.owner)[z].Some? ==> r == if old(pool.owner)[z].value in ["", server] then Ok(()) else Err(Conflict)
      ensures pool.owner == if r.Ok? then ClaimRow(old(pool.owner), z, server) else old(pool.owner)
      ensures old(pool.Referenced()) ==> pool.Referenced()
    {
      if Unowned(pool.owner, z) {
        if server !in pool.rows { return Err(Store); }
        pool.owner := ClaimRow(pool.owner, z, server);
        return Ok(());
      }
      if z !in pool.owner { return Err(NotFound); }
      if pool.owner[z].value != "" && pool.owner[z].value != server { return Err(Conflict); }
      r := Ok(());
    }

    method Release(z: ZoneId, server: ServerId) returns (r: Result<()>)
      modifies pool`owner
      ensures r == if OwnedBy(old(pool.owner), z, server) then Ok(()) else if z in old(pool.owner) then Err(NotOwned) else Err(NotFound)
      ensures pool.owner == ReleaseRow(old(pool.owner), z, server)
      ensures old(pool.Referenced()) ==> pool.Referenced()
    {
      if OwnedBy(pool.owner, z, server) {
        pool.owner := ReleaseRow(pool.owner, z, server);
        return Ok(());
      }
      r := Err(if z in pool.owner then NotOwned else NotFound);
    }

    method ListByServer(server: ServerId) returns (zones: seq<ZoneId>)
      ensures Visits(zones, set z | z in pool.owner && pool.owner[z] == Some(server))
    {
      zones := [];
      var rest := pool.owner.Keys;
      while rest != {}
        invariant rest <= pool.owner.Keys
        invariant forall z :: z in zones <==> z in pool.owner && z !in rest && pool.owner[z] == Some(server)
        invariant forall i, j :: 0 <= i < j < |zones| ==> zones[i] != zones[j]
      {
        var z :| z in rest;
        if pool.owner[z] == Some(server) { zones := zones + [z]; }
        rest := rest - {z};
      }
    }

    method Lookup(z: ZoneId) returns (r: Result<ServerId>)
      ensures r == match NamedOwner(pool.owner, z) case Some(s) => Ok(s) case None => Err(NotFound)
    {
      if z !in pool.owner { return Err(NotFound); }
      r := if pool.owner[z].None? || pool.owner[z].value == "" then Err(NotFound) else Ok(pool.owner[z].value);
    }
  }
}
