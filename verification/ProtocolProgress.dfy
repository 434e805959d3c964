/**
 Progress across the two stores, and the end-to-end guarantee.
 */
module ProtocolProgress {
  import opened Basics
  import opened Records
  import opened Jobs
  import opened Transfer
  import opened TransferSafety
  import opened TransferExact
  import opened Protocol
  import opened ProtocolSafety

  /** Progress the worker has already made durable. */
  predicate Covered(s: Net, records: int, batches: int, checkpoint: bool) {
    records <= LocalRecords(s) && batches <= LocalBatches(s) && (checkpoint ==> LocalCheckpoint(s))
  }

  /** A claim of success, with the counters that go with it. */
  ghost predicate Justified(c: Config, s: Net, state: State, records: int, batches: int) {
    state == Succeeded ==>
      && Finished(c, s)
      && records == Total(c.scan, |c.scan.pages|) && batches == Nonempty(c.scan, |c.scan.pages|)
  }

  ghost predicate MessageOk(c: Config, s: Net, m: Message) {
    && Covered(s, m.report.records, m.report.batches, m.report.checkpoint)
    && Justified(c, s, m.report.state, m.report.records, m.report.batches)
  }

  ghost predicate RowOk(c: Config, s: Net) {
    && Covered(s, s.cp.records, s.cp.batches, s.cp.lastCheckpointAt.Some?)
    && Justified(c, s, s.cp.state, s.cp.records, s.cp.batches)
    && s.cp.records >= 0 && s.cp.batches >= 0 && !Hosted(s.cp)
  }

  /** An assignment tells what the control plane knew when it was granted. */
  predicate AssignmentOk(s: Net, a: Assignment) {
    && a.records <= s.cp.records && a.batches <= s.cp.batches
    && (a.checkpoint ==> s.cp.lastCheckpointAt.Some?)
    && 0 <= a.records && 0 <= a.batches
    && a.generation <= s.cp.generation && a.spec == s.cp.spec
  }

  /** Generations only grow, on the wire and on the worker. */
  predicate GenerationsOk(s: Net) {
    && s.next <= |s.issued|
    && (forall i, j :: 0 <= i <= j < |s.issued| ==> s.issued[i].generation <= s.issued[j].generation)
    && (Holds(s.client) ==> s.next > 0 && s.client.a == s.issued[s.next - 1])
    && (s.local.Some? ==>
          && s.local.value.job.generation <= s.cp.generation
          && s.local.value.job.spec == LocalSpec(s.cp.spec)
          && (s.client.Assigned? ==> s.local.value.job.generation <= s.client.a.generation)
          && forall i :: s.next <= i < |s.issued| ==> s.local.value.job.generation <= s.issued[i].generation)
  }

  ghost predicate NetOk(c: Config, s: Net) {
    && LocalOk(c, s)
    && (forall m :: m in s.sent ==> MessageOk(c, s, m))
    && RowOk(c, s)
    && (forall i :: 0 <= i < |s.issued| ==> AssignmentOk(s, s.issued[i]))
    && GenerationsOk(s)
  }

  lemma FreshOk(c: Config, s: Net)
    requires Fresh(c, s)
    ensures NetOk(c, s)
  {
  }

  // ---- messages ----

  lemma MessageKept(c: Config, s: Net, s': Net, m: Message)
    requires MessageOk(c, s, m) && Advances(c, s, s')
    ensures MessageOk(c, s', m)
  {
  }

  /** The report of the local row tells the truth about it. */
  lemma ProgressOk(c: Config, s: Net, sequence: nat, begun: bool)
    requires LocalOk(c, s) && s.local.Some? && Holds(s.client)
    ensures MessageOk(c, s, Message(ProgressReport(s.client.a, s.local.value.job, sequence, s.now), s.now, begun))
  {
    var e := s.local.value;
    if e.job.state == Succeeded {
      assert Position(c, e.job) == |c.scan.pages|;
    }
  }

  /** A refusal repeats what the control plane already knows. */
  lemma RejectOk(c: Config, s: Net, f: Failure)
    requires RowOk(c, s) && Holds(s.client) && AssignmentOk(s, s.client.a)
    ensures MessageOk(c, s, Message(RejectReport(s.client.a, f), s.now, false))
  {
  }

  /** Only these steps put a report on the wire. */
  lemma QuietSent(c: Config, s: Net, act: Act)
    requires Can(c, s, act) && !act.SendReport? && !act.Reject? && !act.Admit?
    ensures After(c, s, act).sent == s.sent
  {
    match act {
      case Respond(_) =>
      case Begin =>
      case _ =>
    }
  }

  lemma NewMessageOk(c: Config, s: Net, act: Act, m: Message)
    requires NetOk(c, s) && Can(c, s, act) && m in After(c, s, act).sent && m !in s.sent
    ensures MessageOk(c, s, m)
  {
    match act {
      case SendReport => ProgressOk(c, s, s.client.sequence + 1, s.client.launch == Launched);
      case Reject => RejectOk(c, s, PolicyFailure);
      case Admit(_, _, _) => RejectOk(c, s, CheckpointFailure);
      case _ =>
        QuietSent(c, s, act);
        assert false;
    }
  }

  lemma MessagesKept(c: Config, s: Net, act: Act)
    requires NetOk(c, s) && Can(c, s, act)
    ensures var s' := After(c, s, act); forall m :: m in s'.sent ==> MessageOk(c, s', m)
  {
    var s' := After(c, s, act);
    LocalKept(c, s, act);
    forall m | m in s'.sent
      ensures MessageOk(c, s', m)
    {
      if m !in s.sent {
        NewMessageOk(c, s, act, m);
      }
      MessageKept(c, s, s', m);
    }
  }

  // ---- the control plane's row ----

  predicate CpAct(act: Act) {
    act.Operator? || act.Grant? || act.PolicyFail? || act.Deliver?
  }

  /** The row never loses progress, its checkpoint flag or its generation. */
  lemma RowGrows(c: Config, s: Net, act: Act)
    requires Can(c, s, act)
    ensures var j, j' := s.cp, After(c, s, act).cp;
      && j.records <= j'.records && j.batches <= j'.batches && j.generation <= j'.generation
      && (j.lastCheckpointAt.Some? ==> j'.lastCheckpointAt.Some?) && j'.spec == j.spec
      && (CpAct(act) || j' == j)
  {
    if act.Respond? {
      assert After(c, s, act).cp == s.cp;
    }
  }

  lemma DeliveredRow(c: Config, s: Net, act: Act)
    requires NetOk(c, s) && Can(c, s, act) && act.Deliver?
    ensures RowOk(c, s.(cp := After(c, s, act).cp))
  {
    assert MessageOk(c, s, act.m);
  }

  lemma OperatedRow(c: Config, s: Net, act: Act)
    requires NetOk(c, s) && Can(c, s, act) && !act.Deliver?
    ensures RowOk(c, s.(cp := After(c, s, act).cp))
  {
    RowGrows(c, s, act);
  }

  lemma RowKept(c: Config, s: Net, act: Act)
    requires NetOk(c, s) && Can(c, s, act)
    ensures RowOk(c, After(c, s, act))
  {
    var s' := After(c, s, act);
    LocalKept(c, s, act);
    if act.Deliver? {
      DeliveredRow(c, s, act);
    } else {
      OperatedRow(c, s, act);
    }
  }

  lemma IssuedGrows(c: Config, s: Net, act: Act)
    requires Can(c, s, act)
    ensures act.Grant? ==> After(c, s, act).issued == s.issued + [AssignmentOf(After(c, s, act).cp)]
    ensures !act.Grant? ==> After(c, s, act).issued == s.issued
  {
    match act {
      case Respond(_) =>
      case _ =>
    }
  }

  lemma AssignmentsKept(c: Config, s: Net, act: Act)
    requires NetOk(c, s) && Can(c, s, act)
    ensures var s' := After(c, s, act); forall i :: 0 <= i < |s'.issued| ==> AssignmentOk(s', s'.issued[i])
  {
    RowGrows(c, s, act);
    IssuedGrows(c, s, act);
    var s' := After(c, s, act);
    forall i | 0 <= i < |s'.issued|
      ensures AssignmentOk(s', s'.issued[i])
    {
      if i < |s.issued| {
        assert AssignmentOk(s, s.issued[i]);
      }
    }
  }

  // ---- generations ----

  /** The worker's row keeps its generation and its configuration. */
  predicate SameLocal(s: Net, s': Net) {
    && (s.local.Some? <==> s'.local.Some?)
    && (s.local.Some? ==> s'.local.value.job.generation == s.local.value.job.generation)
    && (s.local.Some? ==> s'.local.value.job.spec == s.local.value.job.spec)
  }

  lemma WorkGeneration(c: Config, s: Net, act: Act)
    requires Can(c, s, act) && act.Work?
    ensures SameLocal(s, After(c, s, act))
  {
    if act.a.Exec? {
      ExecGeneration(c, s.local.value, act.a.who, act.a.answer);
    }
  }

  lemma RespondGeneration(c: Config, s: Net, act: Act)
    requires Can(c, s, act) && act.Respond?
    ensures SameLocal(s, After(c, s, act))
  {
  }

  lemma BeginGeneration(c: Config, s: Net, act: Act)
    requires Can(c, s, act) && act.Begin?
    ensures SameLocal(s, After(c, s, act))
  {
  }

  lemma ProcessGeneration(c: Config, s: Net, act: Act)
    requires Can(c, s, act) && (act.Kill? || act.Boot? || act.CancelLocal? || act.Quit?)
    ensures SameLocal(s, After(c, s, act))
  {
  }

  lemma QuietGeneration(c: Config, s: Net, act: Act)
    requires Can(c, s, act) && !act.Admit? && !act.Work? && !act.Respond?
    ensures SameLocal(s, After(c, s, act))
  {
    if act.Begin? {
      BeginGeneration(c, s, act);
    } else if act.Kill? || act.Boot? || act.CancelLocal? || act.Quit? {
      ProcessGeneration(c, s, act);
    } else {
      assert After(c, s, act).local == s.local;
    }
  }

  /** Only the admission of an assignment changes the generation of the worker's row. */
  lemma LocalGeneration(c: Config, s: Net, act: Act)
    requires Can(c, s, act) && !act.Admit?
    ensures SameLocal(s, After(c, s, act))
  {
    if act.Work? {
      WorkGeneration(c, s, act);
    } else if act.Respond? {
      RespondGeneration(c, s, act);
    } else {
      QuietGeneration(c, s, act);
    }
  }

  lemma ExecGeneration(c: Config, e: Engine, who: nat, answer: Answer)
    requires Enabled(c, e, Exec(who, answer))
    ensures var j := ExecStep(c, e, e.execs[who], answer).job; j.generation == e.job.generation && j.spec == e.job.spec
  {
  }

  /** The control plane's side of an admission is unchanged, and so is what it has granted. */
  lemma AdmitFrame(c: Config, s: Net, act: Act)
    requires Can(c, s, act) && act.Admit?
    ensures var s' := After(c, s, act);
      && s'.cp == s.cp && s'.issued == s.issued && s'.next == s.next
      && (s'.client.Idle? || (s'.client.Prepared? && s'.client.a == s.client.a))
  {
  }

  /** What an admission leaves on the worker: the row it had, or one of the assignment's generation. */
  lemma AdmitLocal(c: Config, s: Net, act: Act)
    requires Can(c, s, act) && act.Admit?
    ensures var a, s' := s.client.a, After(c, s, act);
      s'.local == s.local ||
      (s'.local.Some? && s'.local.value.job.generation == a.generation && s'.local.value.job.spec == LocalSpec(a.spec))
  {
    var a := s.client.a;
    if s.local.Some? && !Refused(s, a, act.sourceFP, act.sinkFP, act.resource) {
      assert a.generation <= s.local.value.job.generation ==> Step(c, s.local.value, Prepare(a, act.sourceFP, act.sinkFP)).job == s.local.value.job;
    }
  }

  lemma AdmitGeneration(c: Config, s: Net, act: Act)
    requires NetOk(c, s) && Can(c, s, act) && act.Admit?
    ensures GenerationsOk(After(c, s, act))
  {
    var a := s.client.a;
    assert a == s.issued[s.next - 1] && AssignmentOk(s, a);
    AdmitFrame(c, s, act);
    AdmitLocal(c, s, act);
  }

  lemma GenerationsKept(c: Config, s: Net, act: Act)
    requires NetOk(c, s) && Can(c, s, act)
    ensures GenerationsOk(After(c, s, act))
  {
    if act.Admit? {
      AdmitGeneration(c, s, act);
    } else if act.Grant? {
      GrantGeneration(c, s, act);
    } else {
      HeldKept(c, s, act);
    }
  }

  lemma GrantGeneration(c: Config, s: Net, act: Act)
    requires NetOk(c, s) && Can(c, s, act) && act.Grant?
    ensures GenerationsOk(After(c, s, act))
  {
    var s' := After(c, s, act);
    forall i, j | 0 <= i <= j < |s'.issued|
      ensures s'.issued[i].generation <= s'.issued[j].generation
    {
      assert i < |s.issued| ==> AssignmentOk(s, s.issued[i]);
    }
  }

  /** What becomes of the assignment in hand, and of those still on the wire. */
  predicate SameHeld(s: Net, s': Net) {
    && s'.issued == s.issued && s'.next == s.next
    && (Holds(s'.client) ==> Holds(s.client) && s'.client.a == s.client.a)
    && (s'.client.Assigned? ==> s.client.Assigned?)
  }

  lemma ClientKeeps(c: Config, s: Net, act: Act)
    requires Can(c, s, act) && !act.Admit? && !act.Grant? && !act.Receive?
    ensures SameHeld(s, After(c, s, act))
  {
    match act {
      case Respond(_) =>
      case Begin =>
      case _ =>
    }
  }

  lemma HeldKept(c: Config, s: Net, act: Act)
    requires NetOk(c, s) && Can(c, s, act) && !act.Admit? && !act.Grant?
    ensures GenerationsOk(After(c, s, act))
  {
    var s' := After(c, s, act);
    RowGrows(c, s, act);
    LocalGeneration(c, s, act);
    if act.Receive? {
      assert s'.local == s.local && s'.issued == s.issued;
    } else {
      ClientKeeps(c, s, act);
    }
  }

  lemma NetKept(c: Config, s: Net, act: Act)
    requires NetOk(c, s) && Can(c, s, act)
    ensures NetOk(c, After(c, s, act))
  {
    LocalKept(c, s, act);
    MessagesKept(c, s, act);
    RowKept(c, s, act);
    AssignmentsKept(c, s, act);
    GenerationsKept(c, s, act);
  }

  lemma {:induction false} NetRunOk(c: Config, states: seq<Net>, acts: seq<Act>, k: nat)
    requires NetRun(c, states, acts) && k < |states|
    ensures NetOk(c, states[k])
  {
    if k == 0 {
      FreshOk(c, states[0]);
    } else {
      NetRunOk(c, states, acts, k - 1);
      NetKept(c, states[k - 1], acts[k - 1]);
    }
  }

  // ---- the guarantees ----

  /**
   End to end, whatever is lost, delayed or repeated, whenever leases run out and
   whoever crashes: when the control plane says succeeded, every page has been
   acknowledged, the destination is complete, and the counters shown are the
   totals of the scan.
   */
  lemma EndToEnd(c: Config, states: seq<Net>, acts: seq<Act>, k: nat)
    requires NetRun(c, states, acts) && k < |states| && states[k].cp.state == Succeeded
    ensures states[k].local.Some? && PrefixAcked(c, states[k].local.value.world, |c.scan.pages|)
    ensures Delivered(c, states[k].local.value.world.sink)
    ensures states[k].cp.records == Total(c.scan, |c.scan.pages|)
    ensures states[k].cp.batches == Nonempty(c.scan, |c.scan.pages|)
  {
    NetRunOk(c, states, acts, k);
    SafeDelivers(c, states[k].local.value);
  }

  /** The control plane never shows more than the worker has durably done, and never takes back what it showed. */
  lemma NeverOutruns(c: Config, states: seq<Net>, acts: seq<Act>, i: nat, k: nat)
    requires NetRun(c, states, acts) && i <= k < |states|
    ensures states[k].cp.records <= LocalRecords(states[k]) && states[k].cp.batches <= LocalBatches(states[k])
    ensures states[k].cp.lastCheckpointAt.Some? ==> LocalCheckpoint(states[k])
    ensures states[k].local.Some? ==> states[k].local.value.job.generation <= states[k].cp.generation
    ensures states[i].cp.records <= states[k].cp.records && states[i].cp.batches <= states[k].cp.batches
    decreases k - i
  {
    NetRunOk(c, states, acts, k);
    if i < k {
      NeverOutruns(c, states, acts, i + 1, k);
      RowGrows(c, states[i], acts[i]);
    }
  }

  /**
   An assignment is refused if and only if the worker has the job and its
   configuration is no longer the one the job was accepted under. A worker that
   kept its data directory is never told that its checkpoint is missing.
   */
  lemma RefusedOnlyByConfiguration(c: Config, states: seq<Net>, acts: seq<Act>, k: nat,
                                   sourceFP: string, sinkFP: string, resource: string)
    requires NetRun(c, states, acts) && k < |states| && states[k].client.Assigned?
    ensures var s := states[k];
      Refused(s, s.client.a, sourceFP, sinkFP, resource) <==>
        s.local.Some? && (s.local.value.job.sourceFP != sourceFP || s.local.value.job.sinkFP != sinkFP)
  {
    NetRunOk(c, states, acts, k);
    var s := states[k];
    assert AssignmentOk(s, s.client.a);
  }

  /**
   Checkpoint exactness of the worker's own row, in every run of the protocol: the
   same k explains it as a hosted row, nothing beyond page k has reached the sink,
   and it never has two executors.
   */
  lemma WorkerRowExact(c: Config, states: seq<Net>, acts: seq<Act>, k: nat)
    requires NetRun(c, states, acts) && k < |states| && states[k].local.Some?
    ensures var e := states[k].local.value; var n := Position(c, e.job);
      && PrefixAcked(c, e.world, n)
      && e.job.records == Total(c.scan, n)
      && e.job.batches == Nonempty(c.scan, n)
      && (e.job.sourceExhausted <==> n == |c.scan.pages|)
      && (e.job.lastCheckpointAt.Some? <==> n > 0)
      && (e.job.state == Succeeded ==> n == |c.scan.pages|)
      && (forall id :: id in e.world.sink && !OldRow(c, e.world, id) ==> SentUpTo(c, e.world, id, n))
      && (Active(e.job.state) && e.ready ==> Someone(e.execs))
      && Single(e.execs)
  {
    NetRunOk(c, states, acts, k);
    var e := states[k].local.value;
    forall id | id in e.world.sink && !OldRow(c, e.world, id)
      ensures SentUpTo(c, e.world, id, Position(c, e.job))
    {
      assert SentRow(c, e.world, id);
    }
  }

  /** The row of the sink comes from page n or one before it. */
  ghost predicate SentUpTo(c: Config, w: World, id: string, n: nat)
    requires id in w.sink
  {
    exists p: nat :: p <= n && p < |c.scan.pages| && w.sink[id] in c.scan.pages[p] && w.sink[id].id == id
  }
}
