/** The production sweep: servers without a recent heartbeat are shut down one by one, and each one's
    zones are released and claimed for another active server, which may itself be next in line. */
module Sweepers {
  import opened Ids
  import opened Nodes
  import opened Repos

  datatype Change = Change(zone: ZoneId, server: ServerId, host: string, port: int)

  function ChangeTo(z: ZoneId, n: Node): Change {
    Change(z, n.id, n.host, n.port)
  }

  /** The last broadcast about a zone. */
  function Last(sent: seq<Change>, z: ZoneId): Option<Change> {
    if sent == [] then None
    else if sent[|sent| - 1].zone == z then Some(sent[|sent| - 1])
    else Last(sent[..|sent| - 1], z)
  }

  lemma LastOf(sent: seq<Change>, c: Change, z: ZoneId)
    ensures Last(sent + [c], z) == if c.zone == z then Some(c) else Last(sent, z)
  {
    assert (sent + [c])[..|sent|] == sent;
  }

  /** Everything a sweep reads or writes about one zone: its owner and the last thing said about it. */
  datatype View = View(owner: Option<ServerId>, last: Option<Change>)

  function ViewOf(owner: Owners, sent: seq<Change>, z: ZoneId): View
    requires z in owner
  {
    View(owner[z], Last(sent, z))
  }

  /** `last` says that zone `z` has gone to server `s`, and where that server is to be found. */
  predicate Names(last: Option<Change>, rows: Servers, z: ZoneId, s: ServerId) {
    && last.Some? && s in rows
    && last.value.zone == z && last.value.server == s && last.value.host == rows[s].host && last.value.port == rows[s].port
  }

  /** Entry `i` is the last broadcast about zone `z`. */
  ghost predicate IsLast(sent: seq<Change>, z: ZoneId, i: int) {
    0 <= i < |sent| && sent[i].zone == z && forall j :: i < j < |sent| ==> sent[j].zone != z
  }

  lemma {:induction false} LastIs(sent: seq<Change>, z: ZoneId)
    ensures Last(sent, z).None? ==> forall i :: 0 <= i < |sent| ==> sent[i].zone != z
    ensures Last(sent, z).Some? ==> exists i :: IsLast(sent, z, i) && sent[i] == Last(sent, z).value
    decreases |sent|
  {
    if sent != [] {
      var front := sent[..|sent| - 1];
      LastIs(front, z);
      if sent[|sent| - 1].zone == z {
        assert IsLast(sent, z, |sent| - 1);
      } else if Last(sent, z).Some? {
        var i :| IsLast(front, z, i) && front[i] == Last(front, z).value;
        assert IsLast(sent, z, i) && sent[i] == Last(sent, z).value;
      }
    }
  }

  /** Given away to an active server and announced so, or unowned because nobody is active. */
  ghost predicate Rehomed(rows: Servers, z: ZoneId, was: View, now: View) {
    match now.owner
    case None => now.last == was.last && forall id :: !IsActive(rows, id)
    case Some(s) => IsActive(rows, s) && Names(now.last, rows, z, s)
  }

  /** One dead server's zones are rehomed and the others left alone. */
  ghost predicate Cleared(rows: Servers, dead: ServerId, z: ZoneId, was: View, now: View) {
    if was.owner == Some(dead) then Rehomed(rows, z, was, now) else now == was
  }

  /** The servers with those in `S` marked shut down. */
  function Marked(rows: Servers, S: set<ServerId>): Servers {
    map id | id in rows :: if id in S then rows[id].(status := Stopped) else rows[id]
  }

  /** Where a zone stands when the servers of `done` have been dealt with. */
  ghost predicate Midway(rows: Servers, dead: set<ServerId>, done: set<ServerId>, z: ZoneId, was: View, now: View) {
    if was.owner.Some? && was.owner.value in dead then
      || (now == was && was.owner.value !in done)
      || (now.owner.Some? && now.owner.value !in done && Settled(rows, dead, z, now))
      || (now.owner.None? && Settled(rows, dead, z, now))
    else now == was
  }

  /** Owned by a server that was active before the sweep and announced so, or unowned and then every
      active server was dead. */
  ghost predicate Settled(rows: Servers, dead: set<ServerId>, z: ZoneId, now: View) {
    match now.owner
    case None => forall id :: IsActive(rows, id) ==> id in dead
    case Some(s) => IsActive(rows, s) && Names(now.last, rows, z, s)
  }

  /** A zone after the whole sweep. An orphan is unowned exactly if no active server lies outside the
      dead list; otherwise such a server owns it and the last broadcast says so. Any other zone is
      as it was and has not been mentioned. */
  ghost predicate Swept(rows: Servers, dead: set<ServerId>, z: ZoneId, was: View, now: View) {
    if was.owner.Some? && was.owner.value in dead then
      && (now.owner.None? <==> forall id :: IsActive(rows, id) ==> id in dead)
      && (now.owner.Some? ==> var s := now.owner.value; IsActive(rows, s) && s !in dead && Names(now.last, rows, z, s))
    else now == was
  }

  lemma MidwayOn(rows: Servers, dead: set<ServerId>, done: set<ServerId>, d: ServerId, z: ZoneId, was: View, now: View, next: View)
    requires d in dead && done <= dead && Midway(rows, dead, done, z, was, now)
    requires Cleared(Marked(rows, done + {d}), d, z, now, next)
    ensures Midway(rows, dead, done + {d}, z, was, next)
  {
    var rows' := Marked(rows, done + {d});
    if now.owner == Some(d) && next.owner.None? {
      forall id | IsActive(rows, id) ensures id in dead {
        assert !IsActive(rows', id);
      }
    }
  }

  class ProductionSweeper {
    const servers: ServerRepository
    const zones: ZoneRepository
    const missThreshold: int
    var sent: seq<Change>

    constructor (servers: ServerRepository, zones: ZoneRepository, missThreshold: int)
      ensures this.servers == servers && this.zones == zones && sent == []
      ensures this.missThreshold == if missThreshold == 0 then 15 else missThreshold
    {
      this.servers, this.zones := servers, zones;
      this.missThreshold := if missThreshold == 0 then 15 else missThreshold;
      sent := [];
    }

    ghost function Views(): map<ZoneId, View>
      reads this, zones.pool
    {
      map z | z in zones.pool.owner :: ViewOf(zones.pool.owner, sent, z)
    }

    /** The loop body for one orphan. */
    method Reassign(z: ZoneId, dead: ServerId)
      requires servers.pool == zones.pool
      modifies this`sent, zones.pool`owner
      ensures zones.pool.owner.Keys == old(zones.pool.owner.Keys)
      ensures forall y :: y in old(Views()) && y != z ==> Views()[y] == old(Views())[y]
      ensures z in old(Views()) ==> Cleared(zones.pool.rows, dead, z, old(Views())[z], Views()[z])
    {
      ghost var was := sent;
      var released := zones.Release(z, dead);
      if released.Err? { return; }
      var nodes := servers.List();
      var target := Select(nodes);
      ListedNodesAlwaysAccept(zones.pool.rows, nodes, target);
      if target.None? { return; }
      var claimed := zones.Claim(z, target.value.id);
      if claimed.Err? { return; }
      sent := sent + [ChangeTo(z, target.value)];
      forall y ensures Last(sent, y) == if y == z then Some(ChangeTo(z, target.value)) else Last(was, y) {
        LastOf(was, ChangeTo(z, target.value), y);
      }
    }

    method ReassignZonesFor(dead: ServerId)
      requires servers.pool == zones.pool
      modifies this`sent, zones.pool`owner
      ensures zones.pool.owner.Keys == old(zones.pool.owner.Keys)
      ensures forall z :: z in old(Views()) ==> Cleared(zones.pool.rows, dead, z, old(Views())[z], Views()[z])
      ensures forall z :: z in old(zones.pool.owner) && old(zones.pool.owner)[z] == Some(dead) && zones.pool.owner[z].Some? ==>
                            exists i :: IsLast(sent, z, i) && Names(Some(sent[i]), zones.pool.rows, z, zones.pool.owner[z].value)
    {
      var ids := zones.ListByServer(dead);
      for i := 0 to |ids|
        invariant zones.pool.owner.Keys == old(zones.pool.owner.Keys)
        invariant forall z :: z in old(Views()) && z !in ids[..i] ==> Views()[z] == old(Views())[z]
        invariant forall z :: z in old(Views()) && z in ids[..i] ==> Cleared(zones.pool.rows, dead, z, old(Views())[z], Views()[z])
      {
        assert ids[..i + 1] == ids[..i] + [ids[i]];
        Reassign(ids[i], dead);
      }
      assert ids[..|ids|] == ids;
      forall z | z in old(zones.pool.owner) && old(zones.pool.owner)[z] == Some(dead) && zones.pool.owner[z].Some?
        ensures exists i :: IsLast(sent, z, i) && Names(Some(sent[i]), zones.pool.rows, z, zones.pool.owner[z].value) {
        assert Cleared(zones.pool.rows, dead, z, old(Views())[z], Views()[z]);
        LastIs(sent, z);
      }
    }

    /** One sweep at `now`, with no failing statement and nobody else writing. */
    method Sweep(now: int)
      requires servers.pool == zones.pool
      modifies this`sent, zones.pool
      ensures zones.pool.owner.Keys == old(zones.pool.owner.Keys)
      ensures var dead := set id | id in old(zones.pool.rows) && IsDead(old(zones.pool.rows), id, now, missThreshold);
              && zones.pool.rows == Marked(old(zones.pool.rows), dead)
              && forall z :: z in old(Views()) ==> Swept(old(zones.pool.rows), dead, z, old(Views())[z], Views()[z])
      ensures forall id :: id in old(zones.pool.rows) ==> id in zones.pool.rows && var was := old(zones.pool.rows)[id];
                zones.pool.rows[id] == if was.status == Active && was.lastHeartbeat < now - missThreshold then was.(status := Stopped) else was
      ensures forall z :: z in zones.pool.owner && zones.pool.owner[z] != old(zones.pool.owner)[z] && zones.pool.owner[z].Some? ==>
                            exists i :: IsLast(sent, z, i) && Names(Some(sent[i]), zones.pool.rows, z, zones.pool.owner[z].value)
    {
      ghost var rows := zones.pool.rows;
      var ids := servers.ListDead(now, missThreshold);
      ghost var dead := set id | id in rows && IsDead(rows, id, now, missThreshold);
      ghost var done := {};
      for i := 0 to |ids|
        invariant zones.pool.owner.Keys == old(zones.pool.owner.Keys)
        invariant done == set k | 0 <= k < i :: ids[k]
        invariant zones.pool.rows == Marked(rows, done)
        invariant forall z :: z in old(Views()) ==> Midway(rows, dead, done, z, old(Views())[z], Views()[z])
      {
        SweepOne(ids[i], rows, dead, done, old(Views()));
        done := done + {ids[i]};
      }
      forall z | z in zones.pool.owner && zones.pool.owner[z] != old(zones.pool.owner)[z] && zones.pool.owner[z].Some?
        ensures exists i :: IsLast(sent, z, i) && Names(Some(sent[i]), zones.pool.rows, z, zones.pool.owner[z].value) {
        assert Swept(rows, dead, z, old(Views())[z], Views()[z]);
        LastIs(sent, z);
      }
    }

    /** The loop body for one dead server. */
    method SweepOne(d: ServerId, ghost rows: Servers, ghost dead: set<ServerId>, ghost done: set<ServerId>, ghost was: map<ZoneId, View>)
      requires servers.pool == zones.pool
      requires d in dead && d in rows && done <= dead && zones.pool.rows == Marked(rows, done)
      requires was.Keys == zones.pool.owner.Keys && forall z :: z in was ==> Midway(rows, dead, done, z, was[z], Views()[z])
      modifies this`sent, zones.pool
      ensures zones.pool.owner.Keys == was.Keys && zones.pool.rows == Marked(rows, done + {d})
      ensures forall z :: z in was ==> Midway(rows, dead, done + {d}, z, was[z], Views()[z])
    {
      ghost var before := Views();
      servers.MarkShutdown(d);
      assert zones.pool.rows == Marked(rows, done + {d});
      assert Views() == before;
      ReassignZonesFor(d);
      forall z | z in was ensures Midway(rows, dead, done + {d}, z, was[z], Views()[z]) {
        MidwayOn(rows, dead, done, d, z, was[z], before[z], Views()[z]);
      }
    }
  }
}
