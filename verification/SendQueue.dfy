/** The drop-oldest send queue: `push` makes up to three separate channel operations, and other
    producers and the consumer may run between any two of them. */
module SendQueues {
  /** A push before its first send, before its receive, and before its second send. */
  datatype Phase<T> = Trying(packet: T) | Full(packet: T) | Retrying(packet: T)

  /** `entered` is every packet ever sent into the channel, in order; `taken` says of each one that
      has left whether the consumer received it (true) or a push evicted it (false); `pushed` is the
      packets of the completed pushes, in the order of completion. */
  datatype Queue<T> = Queue(cap: nat, ch: seq<T>, drops: nat, delivered: seq<T>, busy: map<nat, Phase<T>>,
                            entered: seq<T>, taken: seq<bool>, pushed: seq<T>)
  {
    function Send(k: nat, p: T): Queue<T> {
      this.(ch := ch + [p], entered := entered + [p], pushed := pushed + [p], busy := busy - {k})
    }
  }

  datatype Op<T> = Begin(k: nat, packet: T) | First(k: nat) | Evict(k: nat) | Second(k: nat) | Receive

  predicate Enabled<T>(q: Queue<T>, op: Op<T>) {
    match op
    case Begin(k, _) => k !in q.busy
    case First(k) => k in q.busy && q.busy[k].Trying?
    case Evict(k) => k in q.busy && q.busy[k].Full?
    case Second(k) => k in q.busy && q.busy[k].Retrying?
    case Receive => q.ch != []
  }

  function Step<T>(q: Queue<T>, op: Op<T>): Queue<T>
    requires Enabled(q, op)
  {
    match op
    case Begin(k, p) => q.(busy := q.busy[k := Trying(p)])
    case First(k) =>
      var p := q.busy[k].packet;
      if |q.ch| < q.cap then q.Send(k, p) else q.(busy := q.busy[k := Full(p)])
    case Evict(k) =>
      var next := q.busy[k := Retrying(q.busy[k].packet)];
      if q.ch != [] then q.(ch := q.ch[1..], drops := q.drops + 1, taken := q.taken + [false], busy := next)
      else q.(busy := next)
    case Second(k) =>
      var p := q.busy[k].packet;
      if |q.ch| < q.cap then q.Send(k, p)
      else q.(drops := q.drops + 1, pushed := q.pushed + [p], busy := q.busy - {k})
    case Receive => q.(ch := q.ch[1..], delivered := q.delivered + [q.ch[0]], taken := q.taken + [true])
  }

  predicate AllEnabled<T>(q: Queue<T>, ops: seq<Op<T>>)
    decreases |ops|
  {
    ops == [] || (Enabled(q, ops[0]) && AllEnabled(Step(q, ops[0]), ops[1..]))
  }

  function Run<T>(q: Queue<T>, ops: seq<Op<T>>): Queue<T>
    requires AllEnabled(q, ops)
    decreases |ops|
  {
    if ops == [] then q else Run(Step(q, ops[0]), ops[1..])
  }

  function Empty<T>(cap: nat): Queue<T> {
    Queue(cap, [], 0, [], map[], [], [], [])
  }

  // ---------- any number of producers ----------

  /** The elements of `s` whose flag is set. */
  function Kept<T>(s: seq<T>, flags: seq<bool>): seq<T>
    requires |s| == |flags|
  {
    if s == [] then [] else
    var n := |s| - 1;
    if flags[n] then Kept(s[..n], flags[..n]) + [s[n]] else Kept(s[..n], flags[..n])
  }

  /** First in, first out: what left is a prefix of what entered, and the delivered part of it is what
      the consumer has. Every completed push is delivered, queued or counted as a drop. */
  ghost predicate Conserved<T>(q: Queue<T>) {
    && |q.ch| <= q.cap
    && |q.taken| <= |q.entered| && q.ch == q.entered[|q.taken|..]
    && q.delivered == Kept(q.entered[..|q.taken|], q.taken)
    && |q.pushed| == |q.delivered| + |q.ch| + q.drops
  }

  lemma LeaveKeeps<T>(entered: seq<T>, taken: seq<bool>, flag: bool)
    requires |taken| < |entered|
    ensures entered[|taken|..][1..] == entered[|taken| + 1..]
    ensures Kept(entered[..|taken| + 1], taken + [flag]) == Kept(entered[..|taken|], taken) + (if flag then [entered[|taken|]] else [])
  {
    var s, f := entered[..|taken| + 1], taken + [flag];
    assert s[..|taken|] == entered[..|taken|] && f[..|taken|] == taken;
  }

  lemma StepConserves<T>(q: Queue<T>, op: Op<T>)
    requires Conserved(q) && Enabled(q, op)
    ensures Conserved(Step(q, op))
  {
    var e := Step(q, op);
    if e.taken != q.taken { LeaveKeeps(q.entered, q.taken, op.Receive?); }
    if e.entered != q.entered {
      assert e.entered[..|q.taken|] == q.entered[..|q.taken|];
      assert e.entered[|q.taken|..] == q.entered[|q.taken|..] + [q.busy[op.k].packet];
    }
  }

  lemma {:induction false} RunConserves<T>(q: Queue<T>, ops: seq<Op<T>>)
    requires Conserved(q) && AllEnabled(q, ops)
    ensures Conserved(Run(q, ops))
    decreases |ops|
  {
    if ops != [] {
      StepConserves(q, ops[0]);
      RunConserves(Step(q, ops[0]), ops[1..]);
    }
  }

  /** Completed pushes = delivered + queued + drops, over every interleaving. */
  lemma EveryPushIsAccountedFor<T>(cap: nat, ops: seq<Op<T>>)
    requires AllEnabled(Empty(cap), ops)
    ensures var q := Run(Empty(cap), ops); |q.pushed| == |q.delivered| + |q.ch| + q.drops
  {
    RunConserves(Empty(cap), ops);
  }

  // ---------- one producer ----------

  predicate Single<T>(op: Op<T>) {
    op.Receive? || op.k == 0
  }

  /** With one producer a retried send finds room, so every push enters; and nothing is evicted
      unless a newer packet follows it in. */
  ghost predicate Fresh<T>(q: Queue<T>) {
    && q.cap >= 1 && q.busy.Keys <= {0} && q.entered == q.pushed
    && (0 in q.busy && q.busy[0].Retrying? ==> |q.ch| < q.cap)
    && (q.ch == [] && q.taken != [] && !(0 in q.busy && q.busy[0].Retrying?) ==> q.taken[|q.taken| - 1])
  }

  lemma StepFresh<T>(q: Queue<T>, op: Op<T>)
    requires Fresh(q) && Conserved(q) && Enabled(q, op) && Single(op)
    ensures Fresh(Step(q, op))
  {
  }

  lemma {:induction false} RunFresh<T>(q: Queue<T>, ops: seq<Op<T>>)
    requires Fresh(q) && Conserved(q) && AllEnabled(q, ops) && forall i :: 0 <= i < |ops| ==> Single(ops[i])
    ensures Fresh(Run(q, ops)) && Conserved(Run(q, ops))
    decreases |ops|
  {
    if ops != [] {
      assert Single(ops[0]);
      StepFresh(q, ops[0]);
      StepConserves(q, ops[0]);
      RunFresh(Step(q, ops[0]), ops[1..]);
    }
  }

  /** `s` picks elements of `t` at increasing positions. */
  ghost predicate InOrder<T>(s: seq<T>, t: seq<T>, at: seq<nat>) {
    && |at| == |s|
    && (forall i :: 0 <= i < |s| ==> at[i] < |t| && t[at[i]] == s[i])
    && forall i, j :: 0 <= i < j < |s| ==> at[i] < at[j]
  }

  function Positions(flags: seq<bool>): seq<nat> {
    if flags == [] then [] else
    var n := |flags| - 1;
    if flags[n] then Positions(flags[..n]) + [n] else Positions(flags[..n])
  }

  lemma InOrderMore<T>(s: seq<T>, t: seq<T>, at: seq<nat>, x: T, take: bool)
    requires InOrder(s, t, at)
    ensures take ==> InOrder(s + [x], t + [x], at + [|t|])
    ensures !take ==> InOrder(s, t + [x], at)
  {
  }

  lemma {:induction false} KeptInOrder<T>(s: seq<T>, flags: seq<bool>)
    requires |s| == |flags|
    ensures InOrder(Kept(s, flags), s, Positions(flags))
    decreases |s|
  {
    if s != [] {
      var n := |s| - 1;
      KeptInOrder(s[..n], flags[..n]);
      InOrderMore(Kept(s[..n], flags[..n]), s[..n], Positions(flags[..n]), s[n], flags[n]);
      assert s == s[..n] + [s[n]];
    }
  }

  lemma KeptLast<T>(s: seq<T>, flags: seq<bool>)
    requires |s| == |flags| && flags != [] && flags[|flags| - 1]
    ensures Kept(s, flags) != [] && Kept(s, flags)[|Kept(s, flags)| - 1] == s[|s| - 1]
  {
  }

  /** With one producer, what is delivered is an in-order subsequence of what was pushed, the packets
      still queued are the last ones pushed, and between pushes the newest packet is the last in the
      queue or the last delivered: it is never the one lost. */
  lemma NewestIsNeverLost<T>(cap: nat, ops: seq<Op<T>>)
    requires cap >= 1 && AllEnabled(Empty(cap), ops) && forall i :: 0 <= i < |ops| ==> Single(ops[i])
    ensures var q := Run(Empty(cap), ops);
            && InOrder(q.delivered, q.pushed, Positions(q.taken))
            && |q.ch| <= |q.pushed| && q.ch == q.pushed[|q.pushed| - |q.ch|..]
            && (q.busy == map[] && q.pushed != [] && q.ch == [] ==>
                  q.delivered != [] && q.delivered[|q.delivered| - 1] == q.pushed[|q.pushed| - 1])
  {
    RunFresh(Empty(cap), ops);
    var q := Run(Empty(cap), ops);
    KeptInOrder(q.entered[..|q.taken|], q.taken);
    if q.ch == [] {
      assert q.entered[..|q.taken|] == q.entered;
      if q.busy == map[] && q.pushed != [] { KeptLast(q.entered, q.taken); }
    }
  }

  // ---------- the newest packet, any number of producers ----------

  /** Whether the latest push to complete was lost, before `op` and after it: a first send that finds
      room and any second send complete a push, and a second send that finds the channel full loses it. */
  function LostBy<T>(q: Queue<T>, op: Op<T>, lost: bool): bool {
    if op.First? && |q.ch| < q.cap then false
    else if op.Second? then |q.ch| >= q.cap
    else lost
  }

  predicate LastLost<T>(q: Queue<T>, ops: seq<Op<T>>, lost: bool)
    requires AllEnabled(q, ops)
    decreases |ops|
  {
    if ops == [] then lost else LastLost(Step(q, ops[0]), ops[1..], LostBy(q, ops[0], lost))
  }

  /** The packet of the push that completed last waits at the end of the queue, or it left the queue
      as the last one and was delivered. */
  predicate NewestKept<T(==)>(q: Queue<T>)
    requires q.pushed != []
  {
    var newest := q.pushed[|q.pushed| - 1];
    if q.ch != [] then q.ch[|q.ch| - 1] == newest else q.delivered != [] && q.delivered[|q.delivered| - 1] == newest
  }

  /** Someone has evicted a packet and not yet sent its own. */
  ghost predicate Making<T>(q: Queue<T>) {
    exists k :: k in q.busy && q.busy[k].Retrying?
  }

  /** What entered are earlier pushes, and the last one too unless that was lost. */
  ghost predicate Told<T>(q: Queue<T>, lost: bool) {
    && (lost ==> q.pushed != [])
    && (forall p :: p in q.entered ==> if lost then p in q.pushed[..|q.pushed| - 1] else p in q.pushed)
    && (q.pushed != [] && !lost ==> q.entered != [] && q.entered[|q.entered| - 1] == q.pushed[|q.pushed| - 1])
  }

  /** Nothing has emptied the queue but a delivery, or a push that is still to refill it. */
  ghost predicate Refilled<T>(q: Queue<T>) {
    && (q.cap == 0 ==> q.entered == [])
    && (q.entered != [] && q.ch == [] && !Making(q) ==> q.taken != [] && q.taken[|q.taken| - 1])
  }

  lemma StepRefilled<T>(q: Queue<T>, op: Op<T>)
    requires Refilled(q) && Conserved(q) && Enabled(q, op)
    ensures Refilled(Step(q, op))
  {
    var e := Step(q, op);
    if op.Evict? {
      assert op.k in e.busy && e.busy[op.k].Retrying?;
    } else if !op.Second? && Making(q) {
      var k :| k in q.busy && q.busy[k].Retrying?;
      assert k in e.busy && e.busy[k].Retrying?;
    }
  }

  lemma StepTold<T>(q: Queue<T>, op: Op<T>, lost: bool)
    requires Told(q, lost) && Enabled(q, op)
    ensures Told(Step(q, op), LostBy(q, op, lost))
  {
    var e := Step(q, op);
    if e.pushed != q.pushed { assert e.pushed[..|q.pushed|] == q.pushed; }
  }

  lemma {:induction false} RunTold<T>(q: Queue<T>, ops: seq<Op<T>>, lost: bool)
    requires AllEnabled(q, ops) && Conserved(q) && Refilled(q) && Told(q, lost)
    ensures Conserved(Run(q, ops)) && Refilled(Run(q, ops)) && Told(Run(q, ops), LastLost(q, ops, lost))
    decreases |ops|
  {
    if ops != [] {
      StepConserves(q, ops[0]);
      StepRefilled(q, ops[0]);
      StepTold(q, ops[0], lost);
      RunTold(Step(q, ops[0]), ops[1..], LostBy(q, ops[0], lost));
    }
  }

  lemma LastOfEntered<T>(q: Queue<T>)
    requires Conserved(q) && Refilled(q) && q.entered != [] && q.busy == map[]
    ensures q.ch != [] ==> q.ch[|q.ch| - 1] == q.entered[|q.entered| - 1]
    ensures q.ch == [] ==> q.delivered != [] && q.delivered[|q.delivered| - 1] == q.entered[|q.entered| - 1]
  {
    if q.ch == [] {
      assert q.entered[..|q.taken|] == q.entered;
      KeptLast(q.entered, q.taken);
    }
  }

  lemma {:induction false} KeptAmong<T>(s: seq<T>, flags: seq<bool>)
    requires |s| == |flags|
    ensures forall p :: p in Kept(s, flags) ==> p in s
    decreases |s|
  {
    if s != [] { KeptAmong(s[..|s| - 1], flags[..|s| - 1]); }
  }

  predicate Distinct<T(==)>(s: seq<T>) {
    forall i, j :: 0 <= i < j < |s| ==> s[i] != s[j]
  }

  /** The newest packet over every run, for any capacity and any number of producers: between pushes
      it is the last in the queue or the last delivered if the push that completed last did not find
      the channel full on its second send, and, where packets can be told apart, only if. */
  lemma NewestIsKeptIff<T>(cap: nat, ops: seq<Op<T>>)
    requires AllEnabled(Empty(cap), ops) && Run(Empty(cap), ops).busy == map[] && Run(Empty(cap), ops).pushed != []
    ensures var q := Run(Empty(cap), ops);
            && (!LastLost(Empty(cap), ops, false) ==> NewestKept(q))
            && (Distinct(q.pushed) ==> (NewestKept(q) <==> !LastLost(Empty(cap), ops, false)))
  {
    RunTold(Empty(cap), ops, false);
    var q := Run(Empty(cap), ops);
    if q.entered != [] { LastOfEntered(q); }
    if LastLost(Empty(cap), ops, false) && Distinct(q.pushed) { LostIsGone(q); }
  }

  lemma LostIsGone<T>(q: Queue<T>)
    requires Conserved(q) && Told(q, true) && q.pushed != [] && Distinct(q.pushed)
    ensures !NewestKept(q)
  {
    var newest := q.pushed[|q.pushed| - 1];
    assert newest !in q.entered by { assert newest !in q.pushed[..|q.pushed| - 1]; }
    KeptAmong(q.entered[..|q.taken|], q.taken);
    assert forall p :: p in q.entered[..|q.taken|] ==> p in q.entered;
    assert newest !in q.ch && newest !in q.delivered;
  }

  // Filling the channel from empty, then two pushes at once.

  function FillOps<T>(packets: seq<T>): seq<Op<T>> {
    if packets == [] then [] else [Begin(0, packets[0])] + ([First(0)] + FillOps(packets[1..]))
  }

  /** The queue after `packets` have been pushed into free room. */
  function Filled<T>(q: Queue<T>, packets: seq<T>): Queue<T> {
    q.(ch := q.ch + packets, entered := q.entered + packets, pushed := q.pushed + packets)
  }

  lemma {:induction false} FillRuns<T>(q: Queue<T>, packets: seq<T>)
    requires q.busy == map[] && |q.ch| + |packets| <= q.cap
    ensures AllEnabled(q, FillOps(packets)) && Run(q, FillOps(packets)) == Filled(q, packets)
    decreases |packets|
  {
    if packets != [] {
      var p, rest := packets[0], packets[1..];
      var q1, q2 := Step(q, Begin(0, p)), Filled(q, [p]);
      assert Step(q1, First(0)) == q2;
      FillRuns(q2, rest);
      assert [p] + rest == packets;
      assert q.ch + [p] + rest == q.ch + packets && q.entered + [p] + rest == q.entered + packets && q.pushed + [p] + rest == q.pushed + packets;
      Then(q1, First(0), FillOps(rest));
      Then(q, Begin(0, p), [First(0)] + FillOps(rest));
    } else {
      assert q.ch + [] == q.ch && q.entered + [] == q.entered && q.pushed + [] == q.pushed;
    }
  }

  /** Two pushes meet at a full channel: the first makes room, the second takes it. */
  function RaceOps<T>(a: T, b: T): seq<Op<T>> {
    [Begin(0, a)] + ([Begin(1, b)] + ([First(0)] + ([Evict(0)] + ([First(1)] + ([Second(0)] + [])))))
  }

  lemma RaceRuns<T>(q: Queue<T>, a: T, b: T)
    requires q.cap >= 1 && |q.ch| == q.cap && q.busy == map[]
    ensures AllEnabled(q, RaceOps(a, b))
    ensures var e := Run(q, RaceOps(a, b));
            && e.ch == q.ch[1..] + [b] && e.pushed == q.pushed + [b, a] && e.entered == q.entered + [b]
            && e.delivered == q.delivered && e.drops == q.drops + 2
  {
    var q2 := q.(busy := map[0 := Trying(a), 1 := Trying(b)]);
    var q4 := q.(busy := map[0 := Retrying(a), 1 := Trying(b)], ch := q.ch[1..], drops := q.drops + 1, taken := q.taken + [false]);
    RaceEnds(q4, a, b);
    RaceEvicts(q2, q4, a, b);
    assert Step(Step(q, Begin(0, a)), Begin(1, b)) == q2;
    var tail := [First(0)] + ([Evict(0)] + ([First(1)] + ([Second(0)] + [])));
    Then(Step(q, Begin(0, a)), Begin(1, b), tail);
    Then(q, Begin(0, a), [Begin(1, b)] + tail);
  }

  lemma RaceEvicts<T>(q2: Queue<T>, q4: Queue<T>, a: T, b: T)
    requires q2.cap >= 1 && |q2.ch| == q2.cap && q2.busy == map[0 := Trying(a), 1 := Trying(b)]
    requires q4 == q2.(busy := map[0 := Retrying(a), 1 := Trying(b)], ch := q2.ch[1..], drops := q2.drops + 1, taken := q2.taken + [false])
    requires AllEnabled(q4, [First(1)] + ([Second(0)] + []))
    ensures AllEnabled(q2, [First(0)] + ([Evict(0)] + ([First(1)] + ([Second(0)] + []))))
    ensures Run(q2, [First(0)] + ([Evict(0)] + ([First(1)] + ([Second(0)] + [])))) == Run(q4, [First(1)] + ([Second(0)] + []))
  {
    var q3 := q2.(busy := map[0 := Full(a), 1 := Trying(b)]);
    assert Step(q2, First(0)) == q3;
    assert Step(q3, Evict(0)) == q4;
    Then(q3, Evict(0), [First(1)] + ([Second(0)] + []));
    Then(q2, First(0), [Evict(0)] + ([First(1)] + ([Second(0)] + [])));
  }

  lemma RaceEnds<T>(q4: Queue<T>, a: T, b: T)
    requires |q4.ch| + 1 == q4.cap && q4.busy == map[0 := Retrying(a), 1 := Trying(b)]
    ensures AllEnabled(q4, [First(1)] + ([Second(0)] + []))
    ensures var e := Run(q4, [First(1)] + ([Second(0)] + []));
            && e.ch == q4.ch + [b] && e.pushed == q4.pushed + [b, a] && e.entered == q4.entered + [b]
            && e.delivered == q4.delivered && e.drops == q4.drops + 1
  {
    var q5 := Step(q4, First(1));
    assert q5.busy == map[0 := Retrying(a)] && q5.ch == q4.ch + [b];
    Then(q5, Second(0), []);
    Then(q4, First(1), [Second(0)] + []);
    assert q4.pushed + [b] + [a] == q4.pushed + [b, a];
  }

  /** For every capacity, from the empty queue: with two producers the packet of the push that
      completes last never enters the channel, and an older one is gone as well. */
  lemma TwoProducersLoseTheNewest<T>(cap: nat, packets: seq<T>, a: T, b: T)
    requires cap >= 1 && |packets| == cap
    ensures var ops := FillOps(packets) + RaceOps(a, b);
            && AllEnabled(Empty(cap), ops)
            && var q := Run(Empty(cap), ops);
               q.pushed == packets + [b, a] && q.entered == packets + [b] && q.ch == packets[1..] + [b] && q.delivered == [] && q.drops == 2
  {
    FillRuns(Empty(cap), packets);
    var q := Filled(Empty(cap), packets);
    assert q.ch == packets && q.entered == packets && q.pushed == packets;
    RaceRuns(q, a, b);
    RunOn(Empty(cap), FillOps(packets), RaceOps(a, b));
  }

  lemma {:induction false} RunOn<T>(q: Queue<T>, ops: seq<Op<T>>, more: seq<Op<T>>)
    requires AllEnabled(q, ops) && AllEnabled(Run(q, ops), more)
    ensures AllEnabled(q, ops + more) && Run(q, ops + more) == Run(Run(q, ops), more)
    decreases |ops|
  {
    if ops == [] {
      assert ops + more == more;
    } else {
      assert (ops + more)[0] == ops[0] && (ops + more)[1..] == ops[1..] + more;
      RunOn(Step(q, ops[0]), ops[1..], more);
    }
  }

  // ---------- push alone ----------

  /** The queue after one undisturbed push. */
  function Queued<T>(ch: seq<T>, cap: nat, p: T): seq<T> {
    if |ch| < cap then ch + [p] else if ch != [] then ch[1..] + [p] else ch
  }

  function PushOps<T>(q: Queue<T>, p: T): seq<Op<T>> {
    if |q.ch| < q.cap then [Begin(0, p), First(0)] else [Begin(0, p), First(0), Evict(0), Second(0)]
  }

  class BoundedSendQueue<T> {
    const capacity: nat
    var ch: seq<T>
    var drops: nat

    constructor (capacity: nat)
      ensures this.capacity == capacity && ch == [] && drops == 0
    {
      this.capacity, ch, drops := capacity, [], 0;
    }

    method Push(data: T)
      requires |ch| <= capacity
      modifies this
      ensures ch == Queued(old(ch), capacity, data) && |ch| <= capacity
      ensures drops == old(drops) + if old(|ch|) < capacity then 0 else 1
    {
      if |ch| < capacity {
        ch := ch + [data];
      } else {
        if ch != [] {
          ch := ch[1..];
          drops := drops + 1;
        }
        if |ch| < capacity {
          ch := ch + [data];
        } else {
          drops := drops + 1;
        }
      }
    }
  }

  lemma Then<T>(q: Queue<T>, op: Op<T>, ops: seq<Op<T>>)
    requires Enabled(q, op) && AllEnabled(Step(q, op), ops)
    ensures AllEnabled(q, [op] + ops) && Run(q, [op] + ops) == Run(Step(q, op), ops)
  {
    assert ([op] + ops)[1..] == ops;
  }

  /** Undisturbed, the steps of a push do what `Push` does. */
  lemma PushAlone<T>(q: Queue<T>, p: T)
    requires |q.ch| <= q.cap && q.busy == map[]
    ensures AllEnabled(q, PushOps(q, p))
    ensures Run(q, PushOps(q, p)).ch == Queued(q.ch, q.cap, p)
    ensures Run(q, PushOps(q, p)).drops == q.drops + if |q.ch| < q.cap then 0 else 1
  {
    var q1 := Step(q, Begin(0, p));
    var q2 := Step(q1, First(0));
    if |q.ch| < q.cap {
      Then(q1, First(0), []);
      Then(q, Begin(0, p), [First(0)] + []);
      assert PushOps(q, p) == [Begin(0, p)] + ([First(0)] + []);
    } else {
      Then(Step(q2, Evict(0)), Second(0), []);
      Then(q2, Evict(0), [Second(0)] + []);
      Then(q1, First(0), [Evict(0)] + ([Second(0)] + []));
      Then(q, Begin(0, p), [First(0)] + ([Evict(0)] + ([Second(0)] + [])));
      assert PushOps(q, p) == [Begin(0, p)] + ([First(0)] + ([Evict(0)] + ([Second(0)] + [])));
    }
  }
}
