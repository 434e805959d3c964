/**
 What holds while a job has one executor at a time: the counters of the durable
 row are exactly those of the pages before its cursor, and the sink differs from
 its initial rows on one page more at most. It also settles exactly when a
 checkpoint written by an overlapping executor keeps the counters right.
 */
module TransferExact {
  import opened Basics
  import opened Records
  import opened Jobs
  import opened Transfer
  import opened TransferSafety

  /** The counters of the row are those of the first Position pages of the scan. */
  ghost predicate Exact(c: Config, j: Job) {
    && Position(c, j) <= |c.scan.pages|
    && j.records == Total(c.scan, Position(c, j))
    && j.batches == Nonempty(c.scan, Position(c, j))
    && (j.lastCheckpointAt.Some? <==> Position(c, j) > 0)
  }

  /** A live executor works from the current checkpoint. */
  ghost predicate Current(j: Job, pc: PC) {
    match pc
    case Try(cur, _, _) => SameCheckpoint(cur, j)
    case Mark(cur, _, _) => SameCheckpoint(cur, j)
    case Call(cur, _, _) => SameCheckpoint(cur, j)
    case Back(cur, _, _) => SameCheckpoint(cur, j)
    case Sleep(cur, _, _) => SameCheckpoint(cur, j)
    case Commit(cur, _) => SameCheckpoint(cur, j)
    case _ => true
  }

  predicate SameCheckpoint(cur: Job, j: Job) {
    cur.cursor == j.cursor && !j.sourceExhausted && cur.spec == j.spec
  }

  predicate Single(execs: seq<PC>) {
    forall i, j :: 0 <= i < j < |execs| ==> !Live(execs[i]) || !Live(execs[j])
  }

  predicate Someone(execs: seq<PC>) {
    exists i :: 0 <= i < |execs| && Live(execs[i])
  }

  ghost predicate Sole(c: Config, s: Engine) {
    && Single(s.execs)
    && (forall i :: 0 <= i < |s.execs| ==> Current(s.job, s.execs[i]))
    && (forall p :: p in s.world.tried ==> p <= Position(c, s.job))
    && (Active(s.job.state) && s.ready ==> Someone(s.execs))
    && (!s.ready ==> s.execs == [])
    && Hosted(s.job) && Exact(c, s.job)
  }

  /** The fields that say how far the job has come. */
  predicate SameProgress(j: Job, j': Job) {
    && j'.cursor == j.cursor && j'.sourceExhausted == j.sourceExhausted
    && j'.records == j.records && j'.batches == j.batches
    && j'.lastCheckpointAt == j.lastCheckpointAt && j'.spec == j.spec
  }

  lemma CheckpointExact(c: Config, j: Job, cur: Job, page: Page, now: Time)
    requires ContractPage(c.scan, cur.cursor, page) && !j.sourceExhausted && cur.cursor == j.cursor && Exact(c, j)
    ensures Exact(c, CheckpointedJob(j, page, now))
    ensures Position(c, CheckpointedJob(j, page, now)) == Position(c, j) + 1
  {
  }

  /** No step but a checkpoint touches the progress of the row. */
  lemma QuietProgress(c: Config, s: Engine, pc: PC, answer: Answer)
    requires !pc.Commit?
    ensures SameProgress(s.job, ExecStep(c, s, pc, answer).job)
  {
    match pc {
      case Top =>
      case _ =>
    }
  }

  /** An executor that returns leaves no active row behind. */
  lemma ReturnsInactive(c: Config, s: Engine, pc: PC, answer: Answer)
    requires SafePC(c, s.world, pc) && CanAnswer(c, s, pc, answer)
    ensures var e := ExecStep(c, s, pc, answer); Active(e.job.state) ==> Live(e.pc) || pc.Exit?
  {
    match pc {
      case Top =>
      case _ =>
    }
  }

  lemma NextCurrent(c: Config, s: Engine, pc: PC, answer: Answer)
    requires Current(s.job, pc) && !pc.Commit?
    ensures var e := ExecStep(c, s, pc, answer); Current(s.job, e.pc)
  {
    match pc {
      case Top =>
      case _ =>
    }
  }

  /** Everything the executor's step does to the durable row, when it is the only one. */
  lemma ExecJobExact(c: Config, s: Engine, who: nat, answer: Answer)
    requires Safe(c, s) && Sole(c, s) && Enabled(c, s, Exec(who, answer))
    ensures var e := ExecStep(c, s, s.execs[who], answer);
      && Exact(c, e.job) && Current(e.job, e.pc)
      && Position(c, s.job) <= Position(c, e.job)
      && (s.execs[who].Commit? || SameProgress(s.job, e.job))
      && (Active(e.job.state) ==> Live(e.pc))
  {
    var pc := s.execs[who];
    var e := ExecStep(c, s, pc, answer);
    assert SafePC(c, s.world, pc) && Current(s.job, pc);
    ReturnsInactive(c, s, pc, answer);
    if pc.Commit? {
      CheckpointExact(c, s.job, pc.cur, pc.page, if answer.Tau? then answer.now else 0);
    } else {
      QuietProgress(c, s, pc, answer);
      NextCurrent(c, s, pc, answer);
      CurrentKept(s.job, e.job, e.pc);
    }
  }

  lemma ExecTried(c: Config, s: Engine, who: nat, answer: Answer)
    requires Safe(c, s) && Sole(c, s) && Enabled(c, s, Exec(who, answer))
    ensures var e := ExecStep(c, s, s.execs[who], answer);
      forall p :: p in e.world.tried ==> p <= Position(c, s.job)
  {
    var pc := s.execs[who];
    match pc {
      case Mark(cur, op, _) =>
      case _ => assert ExecStep(c, s, pc, answer).world.tried == s.world.tried;
    }
  }

  lemma ExecSole(c: Config, s: Engine, who: nat, answer: Answer)
    requires Safe(c, s) && Sole(c, s) && Enabled(c, s, Exec(who, answer))
    ensures Sole(c, Step(c, s, Exec(who, answer)))
  {
    var s' := Step(c, s, Exec(who, answer));
    ExecJobExact(c, s, who, answer);
    ExecTried(c, s, who, answer);
    assert Live(s.execs[who]);
    assert forall i :: 0 <= i < |s.execs| && i != who ==> !Live(s'.execs[i]);
    assert s'.execs[who] == ExecStep(c, s, s.execs[who], answer).pc;
  }

  lemma CurrentKept(j: Job, j': Job, pc: PC)
    requires Current(j, pc) && SameProgress(j, j')
    ensures Current(j', pc)
  {
  }

  lemma OtherSole(c: Config, s: Engine, a: Action)
    requires Safe(c, s) && Sole(c, s) && Enabled(c, s, a) && !a.Exec?
    requires a.Claim? || a.Start? || a.Prepare? ==> Alone(s)
    ensures Sole(c, Step(c, s, a))
  {
    var s' := Step(c, s, a);
    assert SameProgress(s.job, s'.job);
    if a.Claim? || a.Start? {
      assert Live(s'.execs[|s.execs|]);
    }
    forall i | 0 <= i < |s'.execs|
      ensures Current(s'.job, s'.execs[i])
    {
      if i < |s.execs| {
        CurrentKept(s.job, s'.job, s.execs[i]);
      }
    }
  }

  lemma InitSole(c: Config, s: Engine)
    requires Init(c, s)
    ensures Sole(c, s)
  {
  }

  lemma {:induction false} RunSole(c: Config, states: seq<Engine>, acts: seq<Action>, k: nat)
    requires IsRun(c, states, acts) && Init(c, states[0]) && Exclusive(states, acts) && k < |states|
    ensures Safe(c, states[k]) && Sole(c, states[k])
  {
    if k == 0 {
      InitSafe(c, states[0]);
      InitSole(c, states[0]);
    } else {
      RunSole(c, states, acts, k - 1);
      StepSafe(c, states[k - 1], acts[k - 1]);
      if acts[k - 1].Exec? {
        ExecSole(c, states[k - 1], acts[k - 1].who, acts[k - 1].answer);
      } else {
        OtherSole(c, states[k - 1], acts[k - 1]);
      }
    }
  }

  /**
   Checkpoint exactness, given that execution is handed out only when no executor
   is left (TransferHosted proves that it is): each durable row corresponds to one k: the first k pages are
   acknowledged, records and batches count exactly them, the row is exhausted or
   its cursor stands for page k, and the sink differs from its initial rows only
   on ids of the first k + 1 pages. Every row that is still active has an
   executor, unless its process died and has not recovered.
   */
  lemma ExclusiveExactness(c: Config, states: seq<Engine>, acts: seq<Action>, n: nat)
    requires IsRun(c, states, acts) && Init(c, states[0]) && Exclusive(states, acts) && n < |states|
    ensures var s := states[n]; var k := Position(c, s.job);
      && PrefixAcked(c, s.world, k)
      && s.job.records == Total(c.scan, k)
      && s.job.batches == Nonempty(c.scan, k)
      && (s.job.sourceExhausted <==> k == |c.scan.pages|)
      && (s.job.lastCheckpointAt.Some? <==> k > 0)
      && (s.job.state == Succeeded ==> k == |c.scan.pages|)
      && (forall id :: id in s.world.sink && !OldRow(c, s.world, id) ==>
            exists p: nat :: p <= k && p < |c.scan.pages| && s.world.sink[id] in c.scan.pages[p] && s.world.sink[id].id == id)
      && (Active(s.job.state) && s.ready ==> Someone(s.execs))
  {
    RunSole(c, states, acts, n);
    RunComplete(c, states, acts, n);
    var s := states[n];
    forall id | id in s.world.sink && !OldRow(c, s.world, id)
      ensures exists p: nat :: p <= Position(c, s.job) && p < |c.scan.pages| && s.world.sink[id] in c.scan.pages[p] && s.world.sink[id].id == id
    {
      assert SentRow(c, s.world, id);
    }
  }

  /** With one executor at a time, succeeded means that the scan is exhausted. */
  ghost predicate Complete(s: Engine) {
    && (s.job.state == Succeeded ==> s.job.sourceExhausted)
    && forall i :: 0 <= i < |s.execs| ==>
         (s.execs[i].Finish? && s.execs[i].target == Succeeded ==> s.job.sourceExhausted)
  }

  /** The row and the position that one executor step leaves. */
  lemma ExecComplete(c: Config, s: Engine, pc: PC, answer: Answer)
    requires Live(pc) && CanAnswer(c, s, pc, answer)
    requires s.job.state == Succeeded ==> s.job.sourceExhausted
    requires pc.Finish? && pc.target == Succeeded ==> s.job.sourceExhausted
    ensures var e := ExecStep(c, s, pc, answer);
      && (e.job.state == Succeeded && !pc.Commit? ==> e.job.sourceExhausted)
      && (e.pc.Finish? && e.pc.target == Succeeded ==> e.job.sourceExhausted)
  {
  }

  lemma CommitComplete(c: Config, s: Engine, pc: PC, answer: Answer)
    requires pc.Commit? && !s.job.sourceExhausted && (s.job.state == Succeeded ==> s.job.sourceExhausted)
    ensures var e := ExecStep(c, s, pc, answer); e.job.state == Succeeded ==> e.job.sourceExhausted
  {
  }

  lemma OtherComplete(c: Config, s: Engine, a: Action)
    requires Complete(s) && Enabled(c, s, a) && !a.Exec?
    ensures Complete(Step(c, s, a))
  {
    assert forall i :: 0 <= i < |Step(c, s, a).execs| ==> i < |s.execs| || Step(c, s, a).execs[i] == Enter;
  }

  lemma StepComplete(c: Config, s: Engine, a: Action)
    requires Safe(c, s) && Sole(c, s) && Complete(s) && Enabled(c, s, a)
    ensures Complete(Step(c, s, a))
  {
    if a.Exec? {
      var pc := s.execs[a.who];
      assert Live(pc) && Current(s.job, pc);
      ExecComplete(c, s, pc, a.answer);
      if pc.Commit? {
        CommitComplete(c, s, pc, a.answer);
      }
      assert forall i :: 0 <= i < |s.execs| && i != a.who ==> !Live(s.execs[i]);
    } else {
      OtherComplete(c, s, a);
    }
  }

  lemma {:induction false} RunComplete(c: Config, states: seq<Engine>, acts: seq<Action>, k: nat)
    requires IsRun(c, states, acts) && Init(c, states[0]) && Exclusive(states, acts) && k < |states|
    ensures Complete(states[k])
  {
    if k > 0 {
      RunComplete(c, states, acts, k - 1);
      RunSole(c, states, acts, k - 1);
      StepComplete(c, states[k - 1], acts[k - 1]);
    }
  }

  /**
   When executors do overlap, a checkpoint written from a snapshot whose counters
   were exact keeps the row exact if and only if the stored record count is still
   the snapshot's. The code does not make this comparison.
   */
  lemma CheckpointExactIff(c: Config, j: Job, cur: Job, page: Page, now: Time)
    requires Exact(c, j) && Exact(c, cur) && !cur.sourceExhausted && ContractPage(c.scan, cur.cursor, page)
    ensures Exact(c, CheckpointedJob(j, page, now)) <==> j.records == cur.records
  {
    var a, b := Position(c, j), Position(c, cur);
    assert Position(c, CheckpointedJob(j, page, now)) == b + 1;
    if j.records == cur.records {
      TotalMonotone(c.scan, Min(a, b), Max(a, b));
    }
  }

  // ---- overlapping executors, over whole runs ----

  /** An executor's snapshot of the row was exact when it was taken. */
  ghost predicate Snapshot(c: Config, pc: PC) {
    match pc
    case Try(cur, _, _) => Exact(c, cur)
    case Mark(cur, _, _) => Exact(c, cur)
    case Call(cur, _, _) => Exact(c, cur)
    case Back(cur, _, _) => Exact(c, cur)
    case Sleep(cur, _, _) => Exact(c, cur)
    case Commit(cur, _) => Exact(c, cur)
    case _ => true
  }

  ghost predicate Snapshots(c: Config, s: Engine) {
    forall i :: 0 <= i < |s.execs| ==> Snapshot(c, s.execs[i])
  }

  predicate IsCommit(s: Engine, a: Action) {
    a.Exec? && a.who < |s.execs| && s.execs[a.who].Commit?
  }

  /** A checkpoint lands on the record count it was computed from. */
  predicate Matches(s: Engine, a: Action) {
    IsCommit(s, a) ==> s.job.records == s.execs[a.who].cur.records
  }

  lemma NextSnapshot(c: Config, s: Engine, pc: PC, answer: Answer)
    requires Exact(c, s.job) && Snapshot(c, pc)
    ensures Snapshot(c, ExecStep(c, s, pc, answer).pc)
  {
    match pc {
      case Top =>
      case _ =>
    }
  }

  lemma OtherProgress(c: Config, s: Engine, a: Action)
    requires Enabled(c, s, a) && !a.Exec?
    ensures SameProgress(s.job, Step(c, s, a).job)
    ensures forall i :: 0 <= i < |Step(c, s, a).execs| ==> (i < |s.execs| && Step(c, s, a).execs[i] == s.execs[i]) || Step(c, s, a).execs[i] == Enter
  {
  }

  lemma StepSnapshots(c: Config, s: Engine, a: Action)
    requires Exact(c, s.job) && Snapshots(c, s) && Enabled(c, s, a)
    ensures Snapshots(c, Step(c, s, a))
  {
    if a.Exec? {
      NextSnapshot(c, s, s.execs[a.who], a.answer);
    } else {
      OtherProgress(c, s, a);
    }
  }

  lemma StepExactIff(c: Config, s: Engine, a: Action)
    requires Safe(c, s) && Exact(c, s.job) && Snapshots(c, s) && Enabled(c, s, a)
    ensures Exact(c, Step(c, s, a).job) <==> Matches(s, a)
  {
    if IsCommit(s, a) {
      var pc := s.execs[a.who];
      assert SafePC(c, s.world, pc) && Snapshot(c, pc);
      CheckpointExactIff(c, s.job, pc.cur, pc.page, if a.answer.Tau? then a.answer.now else 0);
    } else if a.Exec? {
      QuietProgress(c, s, s.execs[a.who], a.answer);
    } else {
      OtherProgress(c, s, a);
    }
  }

  ghost predicate ExactSoFar(c: Config, states: seq<Engine>, k: nat)
    requires k < |states|
  {
    forall i :: 0 <= i <= k ==> Exact(c, states[i].job)
  }

  predicate MatchesSoFar(states: seq<Engine>, acts: seq<Action>, k: nat)
    requires k <= |acts| <= |states|
  {
    forall i :: 0 <= i < k ==> Matches(states[i], acts[i])
  }

  lemma {:induction false} RunSnapshots(c: Config, states: seq<Engine>, acts: seq<Action>, k: nat)
    requires IsRun(c, states, acts) && Init(c, states[0]) && k < |states|
    requires forall i :: 0 <= i < k ==> Exact(c, states[i].job)
    ensures Snapshots(c, states[k])
  {
    if k > 0 {
      RunSnapshots(c, states, acts, k - 1);
      StepSnapshots(c, states[k - 1], acts[k - 1]);
    }
  }

  lemma NextExactIff(c: Config, states: seq<Engine>, acts: seq<Action>, k: nat)
    requires IsRun(c, states, acts) && Init(c, states[0]) && k < |acts| && ExactSoFar(c, states, k)
    ensures Exact(c, states[k + 1].job) <==> Matches(states[k], acts[k])
  {
    RunSafe(c, states, acts, k);
    RunSnapshots(c, states, acts, k);
    StepExactIff(c, states[k], acts[k]);
  }

  /**
   When exact counters survive, in every run and however executors overlap: the
   row is exact in every state so far if and only if every checkpoint so far was
   written onto the record count its executor had read.
   */
  lemma {:induction false} RunExactIff(c: Config, states: seq<Engine>, acts: seq<Action>, k: nat)
    requires IsRun(c, states, acts) && Init(c, states[0]) && k < |states|
    ensures ExactSoFar(c, states, k) <==> MatchesSoFar(states, acts, k)
  {
    if k > 0 {
      RunExactIff(c, states, acts, k - 1);
      if ExactSoFar(c, states, k - 1) {
        NextExactIff(c, states, acts, k - 1);
      }
    }
  }
}
