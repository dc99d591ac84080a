/** Runtime nodes and the allocator that picks one. */
module Nodes {
  import opened Ids

  type ServerId = string

  datatype Status = Joining | Active | Draining | Stopped

  datatype Node = Node(id: ServerId, host: string, port: int, maxZones: int, zoneCount: int, activeEntities: int, status: Status)
  {
    /** Active and below capacity; a capacity of zero or less means no limit. */
    predicate CanAccept() {
      status == Active && !(maxZones > 0 && zoneCount >= maxZones)
    }

    /** Zones first, entities second. */
    function LoadScore(): real {
      zoneCount as real * 100000.0 + activeEntities as real
    }
  }

  /** A candidate is a pointer that may be nil. */
  type Candidate = Option<Node>

  predicate Accepts(c: Candidate) {
    c.Some? && c.value.CanAccept()
  }

  function Score(c: Candidate): real {
    if c.Some? then c.value.LoadScore() else 0.0
  }

  /** Among the first `n`, candidate `i` accepts, no accepting one scores lower and none before it
      scores as low. */
  ghost predicate Best(nodes: seq<Candidate>, n: nat, i: int)
    requires n <= |nodes|
  {
    && 0 <= i < n && Accepts(nodes[i])
    && (forall k :: 0 <= k < n && Accepts(nodes[k]) ==> Score(nodes[i]) <= Score(nodes[k]))
    && (forall k :: 0 <= k < i && Accepts(nodes[k]) ==> Score(nodes[i]) < Score(nodes[k]))
  }

  ghost predicate IsChoice(nodes: seq<Candidate>, best: Option<Node>) {
    if best.None? then forall k :: 0 <= k < |nodes| ==> !Accepts(nodes[k])
    else exists i :: Best(nodes, |nodes|, i) && nodes[i] == best
  }

  /** LeastLoadedAllocator.Select: the first of the least loaded accepting nodes, and no node only
      when none accepts. */
  method Select(nodes: seq<Candidate>) returns (best: Option<Node>)
    ensures IsChoice(nodes, best)
    ensures best.None? <==> forall i :: 0 <= i < |nodes| ==> nodes[i].None? || nodes[i].value.status != Active || 0 < nodes[i].value.maxZones <= nodes[i].value.zoneCount
    ensures best.Some? ==> best in nodes && best.value.status == Active && (best.value.maxZones <= 0 || best.value.zoneCount < best.value.maxZones)
    ensures best.Some? ==> forall n :: Some(n) in nodes && n.status == Active && (n.maxZones <= 0 || n.zoneCount < n.maxZones) ==>
                             best.value.zoneCount * 100000 + best.value.activeEntities <= n.zoneCount * 100000 + n.activeEntities
  {
    best := None;
    ghost var at := 0;
    for i := 0 to |nodes|
      invariant best.None? ==> forall k :: 0 <= k < i ==> !Accepts(nodes[k])
      invariant best.Some? ==> Best(nodes, i, at) && nodes[at] == best
    {
      if Accepts(nodes[i]) {
        if best.None? || Score(nodes[i]) < Score(best) {
          best, at := nodes[i], i;
        }
      }
    }
    if best.Some? {
      forall n | Some(n) in nodes && n.CanAccept() ensures best.value.LoadScore() <= n.LoadScore() {
        var k :| 0 <= k < |nodes| && nodes[k] == Some(n);
        assert Accepts(nodes[k]);
      }
    }
  }

  /** The documented order: fewer zones, and among as many zones fewer entities. */
  predicate LessLoaded(a: Node, b: Node) {
    a.zoneCount < b.zoneCount || (a.zoneCount == b.zoneCount && a.activeEntities < b.activeEntities)
  }

  /** The score follows the documented order of two nodes if and only if entities do not outweigh zones:
      each zone counts as much as 100000 entities. */
  lemma ScoreFollowsOrderIff(a: Node, b: Node)
    ensures (Score(Some(a)) < Score(Some(b)) <==> LessLoaded(a, b))
       <==> && !(a.zoneCount < b.zoneCount && a.activeEntities - b.activeEntities >= 100000 * (b.zoneCount - a.zoneCount))
            && !(b.zoneCount < a.zoneCount && b.activeEntities - a.activeEntities > 100000 * (a.zoneCount - b.zoneCount))
  {
    var x, y := a.zoneCount * 100000 + a.activeEntities, b.zoneCount * 100000 + b.activeEntities;
    assert Score(Some(a)) == x as real && Score(Some(b)) == y as real;
  }

  /** The failing input: a node with one zone and 100001 entities loses to one with two zones and none. */
  lemma CrowdedNodeLoses(a: Node, b: Node, best: Option<Node>)
    requires a.zoneCount == 1 && a.activeEntities == 100001 && a.CanAccept() && b.zoneCount == 2 && b.activeEntities == 0 && b.CanAccept()
    requires IsChoice([Some(a), Some(b)], best)
    ensures LessLoaded(a, b) && best == Some(b)
  {
    var nodes := [Some(a), Some(b)];
    assert Accepts(nodes[0]) && Accepts(nodes[1]);
    assert Score(nodes[0]) == 200001.0 && Score(nodes[1]) == 200000.0;
    assert Best(nodes, 2, 1);
    ChoiceUnique(nodes, best, Some(b));
  }

  /** The choice is determined by the list. */
  lemma ChoiceUnique(nodes: seq<Candidate>, a: Option<Node>, b: Option<Node>)
    requires IsChoice(nodes, a) && IsChoice(nodes, b)
    ensures a == b
  {
    if a.Some? && b.Some? {
      var i :| Best(nodes, |nodes|, i) && nodes[i] == a;
      var j :| Best(nodes, |nodes|, j) && nodes[j] == b;
    }
  }
}
