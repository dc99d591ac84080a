/** LookupZone as a protocol: any number of calls interleaved statement by statement, with the other
    writers of the two tables in between. */
module Lookups {
  import opened Ids
  import opened Nodes
  import opened Repos

  /** Where a call stands. `Found` has read an owner, `Unplaced` has none, `Chosen` is about to
      claim, `Missed` has claimed no row and is about to ask why. */
  datatype Stage = Called | Found(server: ServerId) | Unplaced | Chosen(server: ServerId)
                 | Missed(server: ServerId) | Answered(server: ServerId) | Failed

  datatype Call = Call(zone: ZoneId, stage: Stage)

  datatype Db = Db(owner: Owners, rows: Servers, calls: map<nat, Call>)
  {
    function Put(c: nat, s: Stage): Db
      requires c in calls
    {
      this.(calls := calls[c := calls[c].(stage := s)])
    }
  }

  datatype Op =
    | Begin(c: nat, z: ZoneId)
    | ReadOwner(c: nat)
    | ReadServer(c: nat)
    | Choose(c: nat, nodes: seq<Candidate>, best: Option<Node>)
    | Update(c: nat)
    | Explain(c: nat)
    | ExplainFails(c: nat)
    | StatementFails(c: nat)
    | Insert(z: ZoneId)
    | Release(z: ZoneId, server: ServerId)
    | Delete(server: ServerId)
    | Report(rows: Servers)

  /** When a step can be taken. `Report` stands for every heartbeat, registration and shutdown. */
  ghost predicate Enabled(d: Db, op: Op) {
    match op
    case Begin(c, _) => c !in d.calls
    case ReadOwner(c) => c in d.calls && d.calls[c].stage == Called
    case ReadServer(c) => c in d.calls && d.calls[c].stage.Found?
    case Choose(c, nodes, best) => c in d.calls && d.calls[c].stage == Unplaced && ListsActive(d.rows, nodes) && IsChoice(nodes, best)
    case Update(c) => c in d.calls && d.calls[c].stage.Chosen?
    case Explain(c) => c in d.calls && d.calls[c].stage.Missed?
    case ExplainFails(c) => c in d.calls && d.calls[c].stage.Missed?
    case StatementFails(c) => c in d.calls && (d.calls[c].stage in {Called, Unplaced} || d.calls[c].stage.Found? || d.calls[c].stage.Chosen?)
    case Report(rows) => d.rows.Keys <= rows.Keys
    case _ => true
  }

  /** The UPDATE of a claim: the foreign key may refuse it, it may place the zone, or it hits no row. */
  function Claiming(d: Db, c: nat, server: ServerId): Db
    requires c in d.calls
  {
    var z := d.calls[c].zone;
    if !Unowned(d.owner, z) then d.Put(c, Missed(server))
    else if server !in d.rows then d.Put(c, Failed)
    else d.(owner := ClaimRow(d.owner, z, server)).Put(c, Answered(server))
  }

  /** The SELECT of a claim: only a missing row and another server's name are refused. */
  function Explaining(d: Db, c: nat, server: ServerId): Stage
    requires c in d.calls
  {
    var z := d.calls[c].zone;
    if z !in d.owner then Failed
    else if d.owner[z].Some? && d.owner[z].value != "" && d.owner[z].value != server then Failed
    else Answered(server)
  }

  ghost function Step(d: Db, op: Op): Db
    requires Enabled(d, op)
  {
    match op
    case Begin(c, z) => d.(calls := d.calls[c := Call(z, Called)])
    case ReadOwner(c) => d.Put(c, match NamedOwner(d.owner, d.calls[c].zone) case Some(s) => Found(s) case None => Unplaced)
    case ReadServer(c) => d.Put(c, var s := d.calls[c].stage.server; if s in d.rows then Answered(s) else Unplaced)
    case Choose(c, _, best) => d.Put(c, if best.None? then Failed else Chosen(best.value.id))
    case Update(c) => Claiming(d, c, d.calls[c].stage.server)
    case Explain(c) => d.Put(c, Explaining(d, c, d.calls[c].stage.server))
    case ExplainFails(c) => d.Put(c, Answered(d.calls[c].stage.server))
    case StatementFails(c) => d.Put(c, if d.calls[c].stage == Called || d.calls[c].stage.Found? then Unplaced else Failed)
    case Insert(z) => d.(owner := InsertRow(d.owner, z))
    case Release(z, server) => d.(owner := ReleaseRow(d.owner, z, server))
    case Delete(server) => d.(owner := Disown(d.owner, server), rows := d.rows - {server})
    case Report(rows) => d.(rows := rows)
  }

  ghost predicate AllEnabled(d: Db, ops: seq<Op>)
    decreases |ops|
  {
    ops == [] || (Enabled(d, ops[0]) && AllEnabled(Step(d, ops[0]), ops[1..]))
  }

  ghost function Run(d: Db, ops: seq<Op>): Db
    requires AllEnabled(d, ops)
    decreases |ops|
  {
    if ops == [] then d else Run(Step(d, ops[0]), ops[1..])
  }

  // ---------- agreement ----------

  /** A step that takes zone `z` from its owner, answers blindly for it, or lets in a server without
      a name. */
  ghost predicate Disturbs(d: Db, op: Op, z: ZoneId)
    requires Enabled(d, op)
  {
    match op
    case Release(y, server) => y == z && OwnedBy(d.owner, z, server)
    case Delete(server) => OwnedBy(d.owner, z, server)
    case ExplainFails(c) => d.calls[c].zone == z
    case Report(rows) => "" in rows
    case _ => false
  }

  ghost predicate Undisturbed(d: Db, ops: seq<Op>, z: ZoneId)
    requires AllEnabled(d, ops)
    decreases |ops|
  {
    ops == [] || (!Disturbs(d, ops[0], z) && Undisturbed(Step(d, ops[0]), ops[1..], z))
  }

  /** The zone has its row, and neither the row nor any server has the empty name. */
  predicate Prepared(d: Db, z: ZoneId) {
    z in d.owner && d.owner[z] != Some("") && "" !in d.rows
  }

  /** What a call for `z` knows about the row is still true of it. */
  predicate CallOk(d: Db, z: ZoneId, c: nat)
    requires c in d.calls && z in d.owner
  {
    match d.calls[c].stage
    case Found(s) => d.owner[z] == Some(s)
    case Answered(s) => d.owner[z] == Some(s)
    case Missed(_) => d.owner[z].Some?
    case Chosen(s) => s != ""
    case _ => true
  }

  ghost predicate CallsOk(d: Db, z: ZoneId)
    requires z in d.owner
  {
    forall c :: c in d.calls && d.calls[c].zone == z ==> CallOk(d, z, c)
  }

  /** Only an unowned row changes, and only to a named server. */
  lemma OwnerStands(d: Db, op: Op, z: ZoneId)
    requires Enabled(d, op) && !Disturbs(d, op, z) && Prepared(d, z) && CallsOk(d, z)
    requires op.Update? ==> d.calls[op.c].stage.server != ""
    ensures Prepared(Step(d, op), z)
    ensures d.owner[z].Some? ==> Step(d, op).owner[z] == d.owner[z]
  {
  }

  lemma ChosenIsNamed(d: Db, nodes: seq<Candidate>, best: Option<Node>)
    requires ListsActive(d.rows, nodes) && IsChoice(nodes, best) && "" !in d.rows && best.Some?
    ensures best.value.id != ""
  {
    ListedNodesAlwaysAccept(d.rows, nodes, best);
  }

  lemma CallStands(d: Db, op: Op, z: ZoneId, c: nat)
    requires Enabled(d, op) && !Disturbs(d, op, z) && Prepared(d, z) && CallsOk(d, z)
    requires Prepared(Step(d, op), z)
    requires d.owner[z].Some? ==> Step(d, op).owner[z] == d.owner[z]
    requires c in Step(d, op).calls && Step(d, op).calls[c].zone == z
    ensures CallOk(Step(d, op), z, c)
  {
    if op.Choose? && op.best.Some? { ChosenIsNamed(d, op.nodes, op.best); }
    if c in d.calls && d.calls[c].zone == z { assert CallOk(d, z, c); }
  }

  /** Every server a call claims for has a name. */
  ghost predicate Named(d: Db) {
    forall c :: c in d.calls && (d.calls[c].stage.Chosen? || d.calls[c].stage.Missed?) ==> d.calls[c].stage.server != ""
  }

  lemma NamedStands(d: Db, op: Op)
    requires Enabled(d, op) && Named(d) && "" !in d.rows
    ensures Named(Step(d, op))
  {
    if op.Choose? && op.best.Some? { ChosenIsNamed(d, op.nodes, op.best); }
  }

  ghost predicate Agreed(d: Db, z: ZoneId) {
    Prepared(d, z) && Named(d) && CallsOk(d, z)
  }

  lemma {:induction false} RunAgrees(d: Db, ops: seq<Op>, z: ZoneId)
    requires AllEnabled(d, ops) && Undisturbed(d, ops, z) && Agreed(d, z)
    ensures Agreed(Run(d, ops), z)
    ensures d.owner[z].Some? ==> Run(d, ops).owner[z] == d.owner[z]
    decreases |ops|
  {
    if ops != [] {
      var e := Step(d, ops[0]);
      OwnerStands(d, ops[0], z);
      NamedStands(d, ops[0]);
      forall c | c in e.calls && e.calls[c].zone == z ensures CallOk(e, z, c) { CallStands(d, ops[0], z, c); }
      RunAgrees(e, ops[1..], z);
    }
  }

  lemma {:induction false} RunMore(d: Db, ops: seq<Op>, more: seq<Op>, z: ZoneId)
    requires AllEnabled(d, ops + more)
    ensures AllEnabled(d, ops) && AllEnabled(Run(d, ops), more) && Run(d, ops + more) == Run(Run(d, ops), more)
    ensures Undisturbed(d, ops + more, z) ==> Undisturbed(d, ops, z) && Undisturbed(Run(d, ops), more, z)
    decreases |ops|
  {
    if ops == [] {
      assert ops + more == more;
    } else {
      assert (ops + more)[0] == ops[0] && (ops + more)[1..] == ops[1..] + more;
      RunMore(Step(d, ops[0]), ops[1..], more, z);
    }
  }

  /** All successful answers for a zone name one server, and from the first of them on that server
      is the stored owner: for every number of calls and every interleaving, whatever other zones'
      owners and the servers do meanwhile. */
  lemma AnswersAgree(d: Db, ops: seq<Op>, more: seq<Op>, z: ZoneId, a: nat, b: nat)
    requires Prepared(d, z) && d.calls == map[]
    requires AllEnabled(d, ops + more) && Undisturbed(d, ops + more, z)
    requires AllEnabled(d, ops) && a in Run(d, ops).calls && Run(d, ops).calls[a].zone == z && Run(d, ops).calls[a].stage.Answered?
    ensures OwnedBy(Run(d, ops).owner, z, Run(d, ops).calls[a].stage.server)
    ensures OwnedBy(Run(d, ops + more).owner, z, Run(d, ops).calls[a].stage.server)
    ensures b in Run(d, ops + more).calls && Run(d, ops + more).calls[b].zone == z && Run(d, ops + more).calls[b].stage.Answered?
            ==> Run(d, ops + more).calls[b].stage.server == Run(d, ops).calls[a].stage.server
  {
    RunMore(d, ops, more, z);
    RunAgrees(d, ops, z);
    RunAgrees(Run(d, ops), more, z);
    assert CallOk(Run(d, ops), z, a);
    var e := Run(d, ops + more);
    if b in e.calls && e.calls[b].zone == z { assert CallOk(e, z, b); }
  }

  /** EnsureRow prepares a zone for lookups: it gives the zone a row, unowned if there was none. */
  lemma InsertPrepares(d: Db, z: ZoneId)
    requires "" !in d.rows && (z in d.owner ==> d.owner[z] != Some(""))
    ensures Prepared(Step(d, Insert(z)), z)
    ensures Step(d, Insert(z)).owner == if z in d.owner then d.owner else d.owner[z := None]
  {
  }

  // ---------- what the premises are for ----------

  /** The call a step belongs to. */
  function CallerOf(op: Op): Option<nat> {
    match op
    case Begin(c, _) => Some(c)
    case ReadOwner(c) => Some(c)
    case ReadServer(c) => Some(c)
    case Choose(c, _, _) => Some(c)
    case Update(c) => Some(c)
    case Explain(c) => Some(c)
    case ExplainFails(c) => Some(c)
    case StatementFails(c) => Some(c)
    case _ => None
  }

  /** A step that gives call `c` its answer. */
  ghost predicate Answers(d: Db, op: Op, c: nat)
    requires Enabled(d, op)
  {
    CallerOf(op) == Some(c) && c in d.calls && c in Step(d, op).calls && Step(d, op).calls[c].stage.Answered?
  }

  /** What each call found in its zone's row when it read the owner, kept up to date by the steps. */
  function Reading(d: Db, op: Op, read: map<nat, Option<ServerId>>): map<nat, Option<ServerId>> {
    if op.ReadOwner? && op.c in d.calls && d.calls[op.c].zone in d.owner then read[op.c := d.owner[d.calls[op.c].zone]] else read
  }

  ghost predicate Recorded(d: Db, read: map<nat, Option<ServerId>>) {
    forall c :: c in d.calls && d.calls[c].stage.Found? ==> c in read && read[c] == Some(d.calls[c].stage.server)
  }

  /** The guard of each answering step: a claimed row needs none; a row that was read must be again
      what was read; the claim's last read must find a name; and one that fails must be one that would
      have found it and answered. */
  ghost predicate Guard(d: Db, op: Op, read: map<nat, Option<ServerId>>)
    requires Enabled(d, op)
  {
    match op
    case ReadServer(c) => c in read && d.calls[c].zone in d.owner && d.owner[d.calls[c].zone] == read[c]
    case Explain(c) => NamedOwner(d.owner, d.calls[c].zone).Some?
    case ExplainFails(c) => Explaining(d, c, d.calls[c].stage.server).Answered? && NamedOwner(d.owner, d.calls[c].zone).Some?
    case _ => true
  }

  ghost predicate Nameless(op: Op) {
    op.Report? && "" in op.rows
  }

  /** An answer names the stored owner, at the moment it is given, if and only if its guard holds. */
  lemma AnswerIsTrueIff(d: Db, op: Op, c: nat, read: map<nat, Option<ServerId>>)
    requires Enabled(d, op) && Named(d) && Recorded(d, read) && Answers(d, op, c)
    ensures OwnedBy(Step(d, op).owner, d.calls[c].zone, Step(d, op).calls[c].stage.server) <==> Guard(d, op, read)
  {
  }

  lemma RecordedStands(d: Db, op: Op, read: map<nat, Option<ServerId>>)
    requires Enabled(d, op) && Recorded(d, read)
    ensures Recorded(Step(d, op), Reading(d, op, read))
  {
  }

  /** Every answer of the run is true when it is given. */
  ghost predicate AllTrue(d: Db, ops: seq<Op>)
    requires AllEnabled(d, ops)
    decreases |ops|
  {
    ops == [] ||
    (&& (forall c :: Answers(d, ops[0], c) ==> OwnedBy(Step(d, ops[0]).owner, d.calls[c].zone, Step(d, ops[0]).calls[c].stage.server))
     && AllTrue(Step(d, ops[0]), ops[1..]))
  }

  /** Every answering step of the run finds its guard. */
  ghost predicate AllGuarded(d: Db, ops: seq<Op>, read: map<nat, Option<ServerId>>)
    requires AllEnabled(d, ops)
    decreases |ops|
  {
    ops == [] ||
    (&& (forall c :: Answers(d, ops[0], c) ==> Guard(d, ops[0], read))
     && AllGuarded(Step(d, ops[0]), ops[1..], Reading(d, ops[0], read)))
  }

  /** Over every run, releases and failures included: all answers are true when given if and only if
      every answering step finds its guard. */
  lemma {:induction false} AnswersAreTrueIff(d: Db, ops: seq<Op>, read: map<nat, Option<ServerId>>)
    requires AllEnabled(d, ops) && Named(d) && "" !in d.rows && Recorded(d, read) && forall op :: op in ops ==> !Nameless(op)
    ensures AllTrue(d, ops) <==> AllGuarded(d, ops, read)
    decreases |ops|
  {
    if ops != [] {
      forall c | Answers(d, ops[0], c)
        ensures OwnedBy(Step(d, ops[0]).owner, d.calls[c].zone, Step(d, ops[0]).calls[c].stage.server) <==> Guard(d, ops[0], read)
      {
        AnswerIsTrueIff(d, ops[0], c, read);
      }
      assert ops[0] in ops;
      NamedStands(d, ops[0]);
      RecordedStands(d, ops[0], read);
      AnswersAreTrueIff(Step(d, ops[0]), ops[1..], Reading(d, ops[0], read));
    }
  }

  // ---------- true answers need not agree ----------

  /** Server `s` owns zone `z` at every step of the run that answers a call for it. */
  ghost predicate AlwaysOwned(d: Db, ops: seq<Op>, z: ZoneId, s: ServerId)
    requires AllEnabled(d, ops)
    decreases |ops|
  {
    ops == [] ||
    (&& (forall c :: Answers(d, ops[0], c) && d.calls[c].zone == z ==> OwnedBy(Step(d, ops[0]).owner, z, s))
     && AlwaysOwned(Step(d, ops[0]), ops[1..], z, s))
  }

  /** Call `c` was for `z` and has been answered. */
  predicate Done(d: Db, z: ZoneId, c: nat) {
    c in d.calls && d.calls[c].zone == z && d.calls[c].stage.Answered?
  }

  /** Every call for `z` that has been answered was answered with `s`. */
  ghost predicate AnsweredWith(d: Db, z: ZoneId, s: ServerId) {
    forall c :: Done(d, z, c) ==> d.calls[c].stage.server == s
  }

  lemma StepAnswers(d: Db, op: Op, z: ZoneId, s: ServerId)
    requires Enabled(d, op)
    ensures AnsweredWith(Step(d, op), z, s)
       <==> AnsweredWith(d, z, s) && forall c :: Answers(d, op, c) && d.calls[c].zone == z ==> Step(d, op).calls[c].stage.server == s
  {
    var e := Step(d, op);
    forall c | Done(d, z, c) ensures Done(e, z, c) && e.calls[c] == d.calls[c] { }
    forall c ensures Done(e, z, c) && !Done(d, z, c) <==> Answers(d, op, c) && d.calls[c].zone == z { }
  }

  lemma {:induction false} TrueAnswersFollow(d: Db, ops: seq<Op>, z: ZoneId, s: ServerId)
    requires AllEnabled(d, ops) && AllTrue(d, ops)
    ensures AnsweredWith(Run(d, ops), z, s) <==> AnsweredWith(d, z, s) && AlwaysOwned(d, ops, z, s)
    decreases |ops|
  {
    if ops != [] {
      StepAnswers(d, ops[0], z, s);
      TrueAnswersFollow(Step(d, ops[0]), ops[1..], z, s);
    }
  }

  ghost predicate AnswersAgreeOn(d: Db, z: ZoneId) {
    forall a, b :: Done(d, z, a) && Done(d, z, b) ==> d.calls[a].stage.server == d.calls[b].stage.server
  }

  /** In a run in which every answer is true, and so in every guarded one, all answers for a zone agree
      if and only if one server is its stored owner at every answering step. */
  lemma GuardedAnswersAgreeIff(d: Db, ops: seq<Op>, z: ZoneId)
    requires AllEnabled(d, ops) && d.calls == map[] && "" !in d.rows && forall op :: op in ops ==> !Nameless(op)
    requires AllGuarded(d, ops, map[])
    ensures AnswersAgreeOn(Run(d, ops), z) <==> exists s :: AlwaysOwned(d, ops, z, s)
  {
    AnswersAreTrueIff(d, ops, map[]);
    forall s ensures AnsweredWith(Run(d, ops), z, s) <==> AlwaysOwned(d, ops, z, s) { TrueAnswersFollow(d, ops, z, s); }
    AgreeIff(Run(d, ops), z);
    if s :| AnsweredWith(Run(d, ops), z, s) { assert AlwaysOwned(d, ops, z, s); }
    if s :| AlwaysOwned(d, ops, z, s) { assert AnsweredWith(Run(d, ops), z, s); }
  }

  lemma AgreeIff(d: Db, z: ZoneId)
    ensures AnswersAgreeOn(d, z) <==> exists s :: AnsweredWith(d, z, s)
  {
    if AnswersAgreeOn(d, z) {
      if c :| Done(d, z, c) {
        assert AnsweredWith(d, z, d.calls[c].stage.server);
      } else {
        assert AnsweredWith(d, z, "");
      }
    }
  }

  /** For the claim's last SELECT the failing family is a row that is NULL or empty by then. */
  lemma ExplainIsSoundIff(d: Db, c: nat)
    requires Enabled(d, Explain(c)) && Step(d, Explain(c)).calls[c].stage.Answered? && d.calls[c].stage.server != ""
    ensures var e := Step(d, Explain(c));
            OwnedBy(e.owner, e.calls[c].zone, e.calls[c].stage.server) <==> NamedOwner(d.owner, e.calls[c].zone).Some?
  {
  }

  /** A call's own steps alone move it on. */
  lemma OthersLeaveCall(d: Db, op: Op, c: nat)
    requires Enabled(d, op) && CallerOf(op) != Some(c) && c in d.calls
    ensures c in Step(d, op).calls && Step(d, op).calls[c] == d.calls[c]
    ensures d.calls[c].zone in d.owner ==> d.calls[c].zone in Step(d, op).owner
  {
  }

  lemma {:induction false} RunLeavesCall(d: Db, ops: seq<Op>, c: nat)
    requires AllEnabled(d, ops) && c in d.calls && forall op :: op in ops ==> CallerOf(op) != Some(c)
    ensures c in Run(d, ops).calls && Run(d, ops).calls[c] == d.calls[c]
    ensures d.calls[c].zone in d.owner ==> d.calls[c].zone in Run(d, ops).owner
    decreases |ops|
  {
    if ops != [] {
      assert ops[0] in ops;
      OthersLeaveCall(d, ops[0], c);
      RunLeavesCall(Step(d, ops[0]), ops[1..], c);
    }
  }

  /** A call reads an owner, others do what they like, and it looks the server up: its answer is the
      stored owner if and only if the row is the one it read. */
  lemma StaleReadIff(d: Db, mid: seq<Op>, c: nat)
    requires Enabled(d, ReadOwner(c)) && NamedOwner(d.owner, d.calls[c].zone).Some?
    requires var e := Step(d, ReadOwner(c)); AllEnabled(e, mid) && forall op :: op in mid ==> CallerOf(op) != Some(c)
    ensures var e, z := Run(Step(d, ReadOwner(c)), mid), d.calls[c].zone;
            && Enabled(e, ReadServer(c)) && z in e.owner
            && (Step(e, ReadServer(c)).calls[c].stage.Answered? ==>
                  (OwnedBy(Step(e, ReadServer(c)).owner, z, Step(e, ReadServer(c)).calls[c].stage.server) <==> e.owner[z] == d.owner[z]))
  {
    RunLeavesCall(Step(d, ReadOwner(c)), mid, c);
  }

  /** The foreign key: every owner has a row. */
  ghost predicate Referenced(d: Db) {
    forall z :: z in d.owner && d.owner[z].Some? ==> d.owner[z].value in d.rows
  }

  lemma {:induction false} ReferencedInEveryRun(d: Db, ops: seq<Op>)
    requires AllEnabled(d, ops) && Referenced(d)
    ensures Referenced(Run(d, ops))
    decreases |ops|
  {
    if ops != [] {
      StepReferenced(d, ops[0]);
      ReferencedInEveryRun(Step(d, ops[0]), ops[1..]);
    }
  }

  lemma StepReferenced(d: Db, op: Op)
    requires Enabled(d, op) && Referenced(d)
    ensures Referenced(Step(d, op))
  {
  }

  /** What the foreign key is for: a call that read an owner is answered with it, whatever happens
      meanwhile, as long as the row stays what it read. */
  lemma ReadOwnerIsAnswered(d: Db, mid: seq<Op>, c: nat)
    requires Referenced(d) && Enabled(d, ReadOwner(c)) && NamedOwner(d.owner, d.calls[c].zone).Some?
    requires var e := Step(d, ReadOwner(c)); AllEnabled(e, mid) && forall op :: op in mid ==> CallerOf(op) != Some(c)
    requires var e, z := Run(Step(d, ReadOwner(c)), mid), d.calls[c].zone; z in e.owner && e.owner[z] == d.owner[z]
    ensures var e := Run(Step(d, ReadOwner(c)), mid);
            Enabled(e, ReadServer(c)) && Step(e, ReadServer(c)).calls[c].stage == Answered(NamedOwner(d.owner, d.calls[c].zone).value)
  {
    RunLeavesCall(Step(d, ReadOwner(c)), mid, c);
    ReferencedInEveryRun(Step(d, ReadOwner(c)), mid);
  }

  lemma {:induction false} RunOn(d: Db, ops: seq<Op>, more: seq<Op>)
    requires AllEnabled(d, ops) && AllEnabled(Run(d, ops), more)
    ensures AllEnabled(d, ops + more) && Run(d, ops + more) == Run(Run(d, ops), more)
    decreases |ops|
  {
    if ops == [] {
      assert ops + more == more;
    } else {
      assert (ops + more)[0] == ops[0] && (ops + more)[1..] == ops[1..] + more;
      RunOn(Step(d, ops[0]), ops[1..], more);
    }
  }

  lemma Then(d: Db, op: Op, e: Db, ops: seq<Op>)
    requires Enabled(d, op) && Step(d, op) == e && AllEnabled(e, ops)
    ensures AllEnabled(d, [op] + ops) && Run(d, [op] + ops) == Run(e, ops)
  {
    assert ([op] + ops)[1..] == ops;
  }

  /** Two active servers and one unowned zone. */
  function Arena(z: ZoneId, a: ServerId, b: ServerId, row: Row): Db {
    Db(map[z := None], map[a := row, b := row], map[])
  }

  function Pick(c: nat, a: ServerId, b: ServerId, row: Row): Op {
    Choose(c, [Some(NodeOf(a, row)), Some(NodeOf(b, row))], Some(NodeOf(a, row)))
  }

  lemma PickEnabled(d: Db, c: nat, a: ServerId, b: ServerId, row: Row)
    requires a != b && row.status == Active && d.rows == map[a := row, b := row]
    requires c in d.calls && d.calls[c].stage == Unplaced
    ensures Enabled(d, Pick(c, a, b, row)) && Enabled(d, Pick(c, b, a, row))
  {
    var ab := [Some(NodeOf(a, row)), Some(NodeOf(b, row))];
    var ba := [Some(NodeOf(b, row)), Some(NodeOf(a, row))];
    assert Best(ab, 2, 0) && Best(ba, 2, 0);
    assert ab[0] == ba[1] && ab[1] == ba[0];
  }

  /** Both calls read NULL; call 1 claims for `a`, then call 0 misses with `b`. */
  function Race(z: ZoneId, a: ServerId, b: ServerId, row: Row): seq<Op> {
    [Begin(0, z), ReadOwner(0), Pick(0, b, a, row)] + ([Begin(1, z), ReadOwner(1), Pick(1, a, b, row)] + [Update(1), Update(0)])
  }

  function Raced(z: ZoneId, a: ServerId, b: ServerId, row: Row): Db {
    Db(map[z := Some(a)], map[a := row, b := row], map[0 := Call(z, Missed(b)), 1 := Call(z, Answered(a))])
  }

  lemma RaceRuns(z: ZoneId, a: ServerId, b: ServerId, row: Row)
    requires a != b && row.status == Active
    ensures AllEnabled(Arena(z, a, b, row), Race(z, a, b, row))
    ensures Run(Arena(z, a, b, row), Race(z, a, b, row)) == Raced(z, a, b, row)
  {
    var d := Arena(z, a, b, row);
    var d3 := d.(calls := map[0 := Call(z, Chosen(b))]);
    var d6 := d.(calls := map[0 := Call(z, Chosen(b)), 1 := Call(z, Chosen(a))]);
    PlacedFirst(d, 0, z, b, a, row);
    PlacedFirst(d3, 1, z, a, b, row);
    Both(d6, z, a, b);
    assert d6.calls == d3.calls[1 := Call(z, Chosen(a))];
    RunOn(d3, [Begin(1, z), ReadOwner(1), Pick(1, a, b, row)], [Update(1), Update(0)]);
    RunOn(d, [Begin(0, z), ReadOwner(0), Pick(0, b, a, row)], [Begin(1, z), ReadOwner(1), Pick(1, a, b, row)] + [Update(1), Update(0)]);
  }

  lemma PlacedFirst(d: Db, c: nat, z: ZoneId, a: ServerId, b: ServerId, row: Row)
    requires a != b && row.status == Active && c !in d.calls && Unowned(d.owner, z) && d.rows == map[a := row, b := row]
    ensures AllEnabled(d, [Begin(c, z), ReadOwner(c), Pick(c, a, b, row)])
    ensures Run(d, [Begin(c, z), ReadOwner(c), Pick(c, a, b, row)]) == d.(calls := d.calls[c := Call(z, Chosen(a))])
  {
    var ops := [Begin(c, z), ReadOwner(c), Pick(c, a, b, row)];
    var d1, d2 := d.(calls := d.calls[c := Call(z, Called)]), d.(calls := d.calls[c := Call(z, Unplaced)]);
    var d3 := d.(calls := d.calls[c := Call(z, Chosen(a))]);
    PickEnabled(d2, c, a, b, row);
    Then(d2, ops[2], d3, []);
    Then(d1, ops[1], d2, [ops[2]]);
    Then(d, ops[0], d1, [ops[1]] + [ops[2]]);
    assert ops == [ops[0]] + ([ops[1]] + [ops[2]]) && [ops[2]] + [] == [ops[2]];
  }

  lemma Both(d: Db, z: ZoneId, a: ServerId, b: ServerId)
    requires a in d.rows && d.owner == map[z := None] && d.calls == map[0 := Call(z, Chosen(b)), 1 := Call(z, Chosen(a))]
    ensures AllEnabled(d, [Update(1), Update(0)])
    ensures Run(d, [Update(1), Update(0)]) == Db(map[z := Some(a)], d.rows, map[0 := Call(z, Missed(b)), 1 := Call(z, Answered(a))])
  {
    var d1 := Db(map[z := Some(a)], d.rows, map[0 := Call(z, Chosen(b)), 1 := Call(z, Answered(a))]);
    Then(d1, Update(0), Db(map[z := Some(a)], d.rows, map[0 := Call(z, Missed(b)), 1 := Call(z, Answered(a))]), []);
    Then(d, Update(1), d1, [Update(0)]);
    assert [Update(0)] + [] == [Update(0)] && [Update(1)] + [Update(0)] == [Update(1), Update(0)];
  }

  /** With a release between the two reads of a call, it answers with the owner of before while
      another call has been answered with the owner of now. */
  lemma StaleReadSplitsAnswers(z: ZoneId, a: ServerId, b: ServerId, row: Row)
    requires a != b && a != "" && row.status == Active
    ensures var d := Arena(z, a, b, row).(owner := map[z := Some(a)]);
            var ops := [Begin(0, z)] + ([ReadOwner(0)] + ([Release(z, a)] + ([Begin(1, z), ReadOwner(1), Pick(1, b, a, row)] + ([Update(1)] + ([ReadServer(0)] + [])))));
            && AllEnabled(d, ops)
            && Run(d, ops).calls == map[0 := Call(z, Answered(a)), 1 := Call(z, Answered(b))]
            && OwnedBy(Run(d, ops).owner, z, b)
  {
    var d := Arena(z, a, b, row).(owner := map[z := Some(a)]);
    var d1 := d.(calls := map[0 := Call(z, Called)]);
    var d2 := d.(calls := map[0 := Call(z, Found(a))]);
    var d3 := d2.(owner := map[z := None]);
    var d4 := d3.(calls := map[0 := Call(z, Found(a)), 1 := Call(z, Chosen(b))]);
    var d5 := Db(map[z := Some(b)], d.rows, map[0 := Call(z, Found(a)), 1 := Call(z, Answered(b))]);
    var d6 := d5.(calls := map[0 := Call(z, Answered(a)), 1 := Call(z, Answered(b))]);
    StaleTail(d4, d5, d6, z, a, b);
    PlacedFirst(d3, 1, z, b, a, row);
    assert d4.calls == d3.calls[1 := Call(z, Chosen(b))];
    RunOn(d3, [Begin(1, z), ReadOwner(1), Pick(1, b, a, row)], [Update(1)] + ([ReadServer(0)] + []));
    var tail := [Begin(1, z), ReadOwner(1), Pick(1, b, a, row)] + ([Update(1)] + ([ReadServer(0)] + []));
    StaleHead(d, d1, d2, d3, z, a, tail);
  }

  lemma StaleTail(d4: Db, d5: Db, d6: Db, z: ZoneId, a: ServerId, b: ServerId)
    requires d4.owner == map[z := None] && a in d4.rows && b in d4.rows && d4.calls == map[0 := Call(z, Found(a)), 1 := Call(z, Chosen(b))]
    requires d5 == Db(map[z := Some(b)], d4.rows, map[0 := Call(z, Found(a)), 1 := Call(z, Answered(b))])
    requires d6 == d5.(calls := map[0 := Call(z, Answered(a)), 1 := Call(z, Answered(b))])
    ensures AllEnabled(d4, [Update(1)] + ([ReadServer(0)] + [])) && Run(d4, [Update(1)] + ([ReadServer(0)] + [])) == d6
  {
    Then(d5, ReadServer(0), d6, []);
    Then(d4, Update(1), d5, [ReadServer(0)] + []);
  }

  lemma StaleHead(d: Db, d1: Db, d2: Db, d3: Db, z: ZoneId, a: ServerId, tail: seq<Op>)
    requires d.calls == map[] && d.owner == map[z := Some(a)] && a != "" && AllEnabled(d3, tail)
    requires d1 == d.(calls := map[0 := Call(z, Called)]) && d2 == d.(calls := map[0 := Call(z, Found(a))]) && d3 == d2.(owner := map[z := None])
    ensures AllEnabled(d, [Begin(0, z)] + ([ReadOwner(0)] + ([Release(z, a)] + tail)))
    ensures Run(d, [Begin(0, z)] + ([ReadOwner(0)] + ([Release(z, a)] + tail))) == Run(d3, tail)
  {
    Then(d2, Release(z, a), d3, tail);
    Then(d1, ReadOwner(0), d2, [Release(z, a)] + tail);
    Then(d, Begin(0, z), d1, [ReadOwner(0)] + ([Release(z, a)] + tail));
  }

  /** With a release between the two statements of a claim, two calls are answered with different
      servers, and the zone belongs to neither. */
  lemma ReleaseSplitsAnswers(z: ZoneId, a: ServerId, b: ServerId, row: Row)
    requires a != b && row.status == Active
    ensures var ops := Race(z, a, b, row) + [Release(z, a), Explain(0)];
            && AllEnabled(Arena(z, a, b, row), ops)
            && Run(Arena(z, a, b, row), ops).calls == map[0 := Call(z, Answered(b)), 1 := Call(z, Answered(a))]
            && Unowned(Run(Arena(z, a, b, row), ops).owner, z)
  {
    RaceRuns(z, a, b, row);
    var d := Raced(z, a, b, row);
    var e := d.(owner := map[z := None]);
    Then(e, Explain(0), e.(calls := map[0 := Call(z, Answered(b)), 1 := Call(z, Answered(a))]), []);
    Then(d, Release(z, a), e, [Explain(0)]);
    assert [Explain(0)] + [] == [Explain(0)] && [Release(z, a)] + [Explain(0)] == [Release(z, a), Explain(0)];
    RunOn(Arena(z, a, b, row), Race(z, a, b, row), [Release(z, a), Explain(0)]);
  }

  /** A last SELECT that fails with anything but a missing row is taken for success. */
  lemma FailedSelectSplitsAnswers(z: ZoneId, a: ServerId, b: ServerId, row: Row)
    requires a != b && row.status == Active
    ensures var ops := Race(z, a, b, row) + [ExplainFails(0)];
            && AllEnabled(Arena(z, a, b, row), ops)
            && Run(Arena(z, a, b, row), ops).calls == map[0 := Call(z, Answered(b)), 1 := Call(z, Answered(a))]
            && OwnedBy(Run(Arena(z, a, b, row), ops).owner, z, a)
  {
    RaceRuns(z, a, b, row);
    var d := Raced(z, a, b, row);
    assert Step(d, ExplainFails(0)) == d.(calls := map[0 := Call(z, Answered(b)), 1 := Call(z, Answered(a))]);
    RunOn(Arena(z, a, b, row), Race(z, a, b, row), [ExplainFails(0)]);
  }
}
