/**
 What an operator orders reaches the worker: a cancel stands until the job is
 canceled and is told with every grant and every answer, and a resume outlives the
 worker's own idea of the job (control/worker_jobs.go, worker/worker.go).
 */
module ProtocolOrders {
  import opened Basics
  import opened Records
  import opened Jobs
  import opened Transfer
  import opened TransferExact
  import opened Protocol
  import opened ProtocolSafety
  import opened ProtocolProgress

  // ---- cancel ----

  /** A job is granted when it is queued, due again, or left without a live lease; a grant lasts 60 seconds, carries the generation of the row, and tells of a pending cancel exactly when there is one. */
  lemma GrantsTellCancel(c: Config, states: seq<Net>, acts: seq<Act>, k: nat)
    requires NetRun(c, states, acts) && k < |acts| && acts[k].Grant?
    ensures var j, now := states[k].cp, states[k].now;
      || j.state == Queued || (j.state == RetryWait && j.nextRunAt.Some? && j.nextRunAt.value <= now)
      || ((j.state == Running || j.state == CancelRequested) && (j.leaseUntil.None? || j.leaseUntil.value <= now))
    ensures var s, s' := states[k], states[k + 1];
      && |s'.issued| == |s.issued| + 1
      && var a := s'.issued[|s.issued|];
         && (a.cancelRequested <==> s.cp.state == CancelRequested)
         && a.id == s.cp.id && a.spec == s.cp.spec && a.generation == s.cp.generation && a.leaseUntil == s.now + 60000
         && a.records == s.cp.records && a.batches == s.cp.batches && (a.checkpoint <==> s.cp.lastCheckpointAt.Some?)
         && s'.cp.state == if s.cp.state == CancelRequested then CancelRequested else Running
  {
  }

  lemma CancelStands(c: Config, s: Net, act: Act)
    requires Can(c, s, act) && s.cp.state == CancelRequested && !act.PolicyFail?
    ensures After(c, s, act).cp.state == CancelRequested || After(c, s, act).cp.state == Canceled
  {
    if !CpAct(act) {
      RowGrows(c, s, act);
    }
  }

  predicate CanceledBetween(states: seq<Net>, i: nat, k: nat)
    requires k < |states|
  {
    exists n :: i < n <= k && states[n].cp.state == Canceled
  }

  /** Whatever reports come and whoever crashes, a cancel request stands until the job is canceled or the policy drops it. */
  lemma {:induction false} CancelSurvives(c: Config, states: seq<Net>, acts: seq<Act>, i: nat, k: nat)
    requires NetRun(c, states, acts) && i <= k < |states| && states[i].cp.state == CancelRequested
    requires forall n :: i <= n < k ==> !acts[n].PolicyFail?
    ensures states[k].cp.state == CancelRequested || CanceledBetween(states, i, k)
    decreases k
  {
    if i < k {
      CancelSurvives(c, states, acts, i, k - 1);
      if states[k - 1].cp.state == CancelRequested {
        CancelStands(c, states[k - 1], acts[k - 1]);
      }
      if CanceledBetween(states, i, k - 1) {
        assert CanceledBetween(states, i, k);
      }
    }
  }

  /** An assignment that tells of a cancel is not executed. */
  predicate Obeys(s: Net) {
    (s.client.Busy? || s.client.Leaving?) && s.client.a.cancelRequested ==> s.client.launch == Nothing
  }

  lemma ObeysKept(c: Config, s: Net, act: Act)
    requires Obeys(s) && Can(c, s, act)
    ensures Obeys(After(c, s, act))
  {
    match act {
      case Respond(_) =>
      case Begin =>
      case _ =>
    }
  }

  lemma {:induction false} RunObeys(c: Config, states: seq<Net>, acts: seq<Act>, k: nat)
    requires NetRun(c, states, acts) && k < |states|
    ensures Obeys(states[k])
  {
    if k > 0 {
      RunObeys(c, states, acts, k - 1);
      ObeysKept(c, states[k - 1], acts[k - 1]);
    }
  }

  /** While the worker holds an assignment that tells of a cancel, no executor of the job is at work on it. */
  lemma CanceledNeverRuns(c: Config, states: seq<Net>, acts: seq<Act>, k: nat)
    requires NetRun(c, states, acts) && k < |states| && Holds(states[k].client) && states[k].client.a.cancelRequested
    ensures states[k].local.Some? ==> Alone(states[k].local.value)
  {
    RunObeys(c, states, acts, k);
    NetRunOk(c, states, acts, k);
  }

  /** A report taken while a cancel is pending either ends the job as canceled or is answered with the cancel. */
  lemma ReportHearsCancel(c: Config, states: seq<Net>, acts: seq<Act>, k: nat)
    requires NetRun(c, states, acts) && k < |acts| && acts[k].Deliver? && states[k].cp.state == CancelRequested
    ensures var m, s' := acts[k].m, states[k + 1];
      if m.report.state == Running || m.report.state == CancelRequested then s'.cp.state == CancelRequested && m in s'.canceling
      else s'.cp.state == Canceled
  {
  }

  lemma CancelingGrows(c: Config, s: Net, act: Act)
    requires Can(c, s, act)
    ensures s.canceling <= After(c, s, act).canceling
  {
    match act {
      case Respond(_) =>
      case Begin =>
      case _ =>
    }
  }

  lemma {:induction false} StillCanceling(c: Config, states: seq<Net>, acts: seq<Act>, i: nat, k: nat, m: Message)
    requires NetRun(c, states, acts) && i <= k < |states| && m in states[i].canceling
    ensures m in states[k].canceling
    decreases k
  {
    if i < k {
      StillCanceling(c, states, acts, i, k - 1, m);
      CancelingGrows(c, states[k - 1], acts[k - 1]);
    }
  }

  /** The worker's executor is told to stop: its row is being canceled or is canceled, or its context is. */
  predicate Told(s: Net) {
    s.local.Some? && (s.local.value.stop || s.local.value.job.state == CancelRequested || s.local.value.job.state == Canceled)
  }

  /**
   A cancel reaches the executor with the next exchange: when a report of a running
   executor is taken while a cancel is pending, then, whenever the worker gets the
   answer, it asks its executor to stop.
   */
  lemma CancelReachesExecutor(c: Config, states: seq<Net>, acts: seq<Act>, i: nat, k: nat)
    requires NetRun(c, states, acts) && i < k < |acts| && acts[i].Deliver? && states[i].cp.state == CancelRequested
    requires acts[i].m.report.state == Running || acts[i].m.report.state == CancelRequested
    requires acts[k].Respond? && states[k].client.pending == Some(acts[i].m)
    ensures acts[k].cancel && Told(states[k + 1])
  {
    ReportHearsCancel(c, states, acts, i);
    StillCanceling(c, states, acts, i + 1, k, acts[i].m);
    assert Can(c, states[k], acts[k]);
    HeardCancel(c, states[k]);
  }

  lemma HeardCancel(c: Config, s: Net)
    requires Can(c, s, Respond(true))
    ensures Told(After(c, s, Respond(true)))
  {
  }

  // ---- resume ----

  /** How often the operator resumed the job. */
  function Resumes(acts: seq<Act>, k: nat): nat
    requires k <= |acts|
  {
    if k == 0 then 0 else Resumes(acts, k - 1) + if acts[k - 1] == Operator(Resume) then 1 else 0
  }

  lemma GenerationStep(c: Config, s: Net, act: Act)
    requires Can(c, s, act) && s.cp.spec.workerID != ""
    ensures After(c, s, act).cp.spec == s.cp.spec
    ensures After(c, s, act).cp.generation == s.cp.generation + if act == Operator(Resume) then 1 else 0
  {
    if !CpAct(act) {
      RowGrows(c, s, act);
    }
  }

  /** The generation of the job counts its resumes, and nothing else. */
  lemma {:induction false} GenerationCountsResumes(c: Config, states: seq<Net>, acts: seq<Act>, k: nat)
    requires NetRun(c, states, acts) && k < |states|
    ensures states[k].cp.spec.workerID != ""
    ensures states[k].cp.generation == states[0].cp.generation + Resumes(acts, k)
  {
    if k > 0 {
      GenerationCountsResumes(c, states, acts, k - 1);
      GenerationStep(c, states[k - 1], acts[k - 1]);
    }
  }

  predicate Later(s: Net, s': Net) {
    s.issued <= s'.issued && s.cp.generation <= s'.cp.generation
  }

  lemma IssuedKept(c: Config, s: Net, act: Act)
    requires Can(c, s, act)
    ensures Later(s, After(c, s, act))
  {
    IssuedGrows(c, s, act);
    RowGrows(c, s, act);
  }

  lemma {:induction false} LaterAlong(states: seq<Net>, i: nat, k: nat)
    requires i <= k < |states| && forall n :: i <= n < k ==> Later(states[n], states[n + 1])
    ensures Later(states[i], states[k])
    decreases k
  {
    if i < k {
      LaterAlong(states, i, k - 1);
      assert Later(states[k - 1], states[k - 1 + 1]);
    }
  }

  lemma IssuedPrefix(c: Config, states: seq<Net>, acts: seq<Act>, i: nat, k: nat)
    requires NetRun(c, states, acts) && i <= k < |states|
    ensures Later(states[i], states[k])
  {
    forall n | i <= n < k
      ensures Later(states[n], states[n + 1])
    {
      IssuedKept(c, states[n], acts[n]);
    }
    LaterAlong(states, i, k);
  }

  /** Every assignment granted after a resume is of a later generation than all granted before. */
  lemma {:induction false} GrantedAfterResume(c: Config, states: seq<Net>, acts: seq<Act>, i: nat, k: nat, n: nat)
    requires NetRun(c, states, acts) && i < k < |states| && acts[i] == Operator(Resume)
    requires |states[i].issued| <= n < |states[k].issued|
    ensures states[i].cp.generation < states[k].issued[n].generation
    decreases k
  {
    var s, act := states[k - 1], acts[k - 1];
    IssuedGrows(c, s, act);
    if n < |s.issued| {
      assert k - 1 > i;
      GrantedAfterResume(c, states, acts, i, k - 1, n);
    } else {
      IssuedPrefix(c, states, acts, i + 1, k - 1);
      GrantsTellCancel(c, states, acts, k - 1);
      GenerationCountsResumes(c, states, acts, i);
      GenerationStep(c, states[i], acts[i]);
    }
  }

  /** The worker has admitted nothing that was granted after step i. */
  predicate NoneAdmitted(states: seq<Net>, acts: seq<Act>, i: nat, k: nat)
    requires i < k <= |acts| < |states|
  {
    forall n :: i < n < k && acts[n].Admit? ==> states[n].next <= |states[i].issued|
  }

  predicate Behind(s: Net, generation: int) {
    s.local.Some? ==> s.local.value.job.generation <= generation
  }

  lemma OldAdmitted(c: Config, states: seq<Net>, acts: seq<Act>, i: nat, k: nat)
    requires NetRun(c, states, acts) && i < k < |acts| && acts[k].Admit? && states[k].next <= |states[i].issued|
    requires Behind(states[k], states[i].cp.generation)
    ensures Behind(states[k + 1], states[i].cp.generation)
  {
    NetRunOk(c, states, acts, i);
    NetRunOk(c, states, acts, k);
    IssuedPrefix(c, states, acts, i, k);
    var n := states[k].next - 1;
    assert AssignmentOk(states[i], states[i].issued[n]);
    assert states[k].client.a == states[k].issued[n] == states[i].issued[n];
    AdmitLocal(c, states[k], acts[k]);
  }

  lemma StillBehind(c: Config, s: Net, act: Act, generation: int)
    requires Can(c, s, act) && !act.Admit? && Behind(s, generation)
    ensures Behind(After(c, s, act), generation)
  {
    LocalGeneration(c, s, act);
  }

  lemma {:induction false} RunBehind(c: Config, states: seq<Net>, acts: seq<Act>, i: nat, k: nat)
    requires NetRun(c, states, acts) && i < k <= |acts| && acts[i] == Operator(Resume) && NoneAdmitted(states, acts, i, k)
    ensures Behind(states[k], states[i].cp.generation)
    decreases k
  {
    if k == i + 1 {
      NetRunOk(c, states, acts, i);
      StillBehind(c, states[i], acts[i], states[i].cp.generation);
    } else {
      RunBehind(c, states, acts, i, k - 1);
      if acts[k - 1].Admit? {
        OldAdmitted(c, states, acts, i, k - 1);
      } else {
        StillBehind(c, states[k - 1], acts[k - 1], states[i].cp.generation);
      }
    }
  }

  /** Until it admits an assignment granted after the resume, the worker's generation stays behind. */
  lemma WorkerBehind(c: Config, states: seq<Net>, acts: seq<Act>, i: nat, k: nat)
    requires NetRun(c, states, acts) && i < k <= |acts| && acts[i] == Operator(Resume) && NoneAdmitted(states, acts, i, k)
    ensures states[i].cp.generation < states[k].cp.generation
    ensures states[k].local.Some? ==> states[k].local.value.job.generation <= states[i].cp.generation
  {
    RunBehind(c, states, acts, i, k);
    IssuedPrefix(c, states, acts, i + 1, k);
    GenerationCountsResumes(c, states, acts, i);
    GenerationStep(c, states[i], acts[i]);
  }

  /** The worker's row is fresh again, and nothing but a pending cancel keeps it from being executed. */
  ghost predicate Renewed(c: Config, s: Net, a: Assignment) {
    && s.client.Prepared? && s.client.a == a && s.local.Some?
    && var j := s.local.value.job;
       && j.state == Queued && j.restarts == 0 && j.nextRunAt == None && j.generation == a.generation
       && (Can(c, s, Arm) <==> !a.cancelRequested) && (Can(c, s, CancelLocal) <==> a.cancelRequested)
       && (Can(c, s, Arm) ==> Launches(c, After(c, s, Arm)))
  }

  /** The next step of the executor's goroutine makes the row running, with one executor more. */
  ghost predicate Launches(c: Config, s: Net) {
    && s.client.Busy? && s.client.launch == NotYet && Can(c, s, Begin)
    && var e, e' := s.local.value, After(c, s, Begin).local.value;
       && e'.job == e.job.(state := Running, phase := Starting, runs := e.job.runs + 1, nextRunAt := None) && e'.execs == e.execs + [Enter] && !e'.stop
  }

  lemma AdmitQueues(c: Config, s: Net, act: Act)
    requires Can(c, s, act) && act.Admit? && NetOk(c, s) && !Refused(s, s.client.a, act.sourceFP, act.sinkFP, act.resource)
    requires s.local.Some? ==> s.local.value.job.generation < s.client.a.generation
    ensures var s' := After(c, s, act); s'.client == Prepared(s.client.a, s.client.at) && s'.local.Some?
    ensures var e := After(c, s, act).local.value;
      e.job.state == Queued && e.job.restarts == 0 && e.job.nextRunAt == None && e.job.generation == s.client.a.generation && e.ready && Hosted(e.job)
  {
    assert s.local.Some? ==> s.local.value.ready && s.local.value.job.spec == LocalSpec(s.cp.spec);
  }

  lemma QueuedRenewed(c: Config, s: Net)
    requires s.client.Prepared? && s.local.Some? && s.local.value.ready
    requires var j := s.local.value.job; j.state == Queued && j.restarts == 0 && j.nextRunAt == None && j.generation == s.client.a.generation && Hosted(j)
    ensures Renewed(c, s, s.client.a)
  {
    if !s.client.a.cancelRequested {
      var t := After(c, s, Arm);
      assert t.local == s.local && t.client.launch == NotYet;
      assert Enabled(c, t.local.value, Start);
    }
  }

  lemma AdmitRenews(c: Config, s: Net, act: Act)
    requires Can(c, s, act) && act.Admit? && NetOk(c, s) && !Refused(s, s.client.a, act.sourceFP, act.sinkFP, act.resource)
    requires s.local.Some? ==> s.local.value.job.generation < s.client.a.generation
    ensures Renewed(c, After(c, s, act), s.client.a)
  {
    AdmitQueues(c, s, act);
    QueuedRenewed(c, After(c, s, act));
  }

  /**
   A resume takes effect. The first assignment granted after it that the worker
   admits puts the job back to queued there with its restarts restored, whatever
   state the worker's own row was in, and unless the assignment tells of a cancel
   the worker launches an executor for it.
   */
  lemma ResumeTakesEffect(c: Config, states: seq<Net>, acts: seq<Act>, i: nat, k: nat)
    requires NetRun(c, states, acts) && i < k < |acts| && acts[i] == Operator(Resume) && NoneAdmitted(states, acts, i, k)
    requires acts[k].Admit? && |states[i].issued| < states[k].next
    requires !Refused(states[k], states[k].client.a, acts[k].sourceFP, acts[k].sinkFP, acts[k].resource)
    ensures Renewed(c, states[k + 1], states[k].client.a)
    ensures states[i].cp.generation < states[k].client.a.generation
  {
    NetRunOk(c, states, acts, k);
    WorkerBehind(c, states, acts, i, k);
    GrantedAfterResume(c, states, acts, i, k, states[k].next - 1);
    AdmitRenews(c, states[k], acts[k]);
  }

  // ---- reports ----

  /** A progress report repeats the worker's row, under the lease in hand and with the next number. */
  lemma ReportTellsRow(c: Config, states: seq<Net>, acts: seq<Act>, k: nat) returns (m: Message)
    requires NetRun(c, states, acts) && k < |acts| && acts[k].SendReport?
    ensures states[k].local.Some? && m in states[k + 1].sent && states[k + 1].client.Busy? && states[k + 1].client.pending == Some(m)
    ensures var r, j, b := m.report, states[k].local.value.job, states[k].client;
      && r.leaseID == b.a.leaseID && r.sequence == b.sequence + 1 == states[k + 1].client.sequence
      && r.state == j.state && r.phase == j.phase && r.records == j.records && r.batches == j.batches
      && r.retries == j.retries && r.restarts == j.restarts && (r.checkpoint <==> j.lastCheckpointAt.Some?)
      && (r.failure == if j.state == Failed then TransferFailure else NoFailure)
      && (j.nextRunAt.Some? ==> 1 <= r.retryAfter <= 3600)
      && (j.nextRunAt.Some? && states[k].now < j.nextRunAt.value <= states[k].now + 3599000 ==>
            j.nextRunAt.value < states[k].now + 1000 * r.retryAfter <= j.nextRunAt.value + 1000)
  {
    m := states[k + 1].client.pending.value;
  }

  /** A refused assignment is reported as failed at once, with the reason and no progress beyond what the assignment told. */
  lemma RefusalTold(c: Config, states: seq<Net>, acts: seq<Act>, k: nat) returns (m: Message)
    requires NetRun(c, states, acts) && k < |acts|
    requires acts[k].Reject? || (acts[k].Admit? && Refused(states[k], states[k].client.a, acts[k].sourceFP, acts[k].sinkFP, acts[k].resource))
    ensures states[k].client.Assigned? && m in states[k + 1].sent && states[k + 1].client == Idle && states[k + 1].local == states[k].local
    ensures var r, a := m.report, states[k].client.a;
      && r.leaseID == a.leaseID && r.sequence == 1 && r.state == Failed
      && r.failure == (if acts[k].Reject? then PolicyFailure else CheckpointFailure)
      && r.records == a.records && r.batches == a.batches && r.checkpoint == a.checkpoint
  {
    m := Message(RejectReport(states[k].client.a, if acts[k].Reject? then PolicyFailure else CheckpointFailure), states[k].now, false);
  }

  /** What a report does to a row that is running: the worker's state becomes the control plane's. */
  lemma ReportTaken(c: Config, states: seq<Net>, acts: seq<Act>, k: nat)
    requires NetRun(c, states, acts) && k < |acts| && acts[k].Deliver? && states[k].cp.state != CancelRequested
    ensures var r, j, j' := acts[k].m.report, states[k].cp, states[k + 1].cp;
      && j.state == Running && j'.state == r.state && j'.phase == r.phase
      && j'.records == r.records && j'.batches == r.batches && j'.retries == r.retries && j'.restarts == r.restarts
      && (r.state == RetryWait ==> j'.nextRunAt == Some(states[k].now + 1000 * Max(1, r.retryAfter)))
      && (r.state == Running ==> j'.leaseID == j.leaseID && j'.leaseUntil == Some(states[k].now + 60000))
  {
  }

  /** A success on the worker becomes one on the control plane with the report that tells of it, complete with its totals. */
  lemma SuccessReported(c: Config, states: seq<Net>, acts: seq<Act>, i: nat, k: nat)
    requires NetRun(c, states, acts) && i < k < |acts| && acts[i].SendReport? && states[i].local.value.job.state == Succeeded
    requires acts[k].Deliver? && Some(acts[k].m) == states[i + 1].client.pending && states[k].cp.state != CancelRequested
    ensures states[k + 1].cp.state == Succeeded
    ensures states[k + 1].cp.records == Total(c.scan, |c.scan.pages|) && states[k + 1].cp.batches == Nonempty(c.scan, |c.scan.pages|)
  {
    var m := ReportTellsRow(c, states, acts, i);
    ReportTaken(c, states, acts, k);
    EndToEnd(c, states, acts, k + 1);
  }

  /** The executor's timer runs for 35 seconds from arming, and after an answer for 35 seconds from the report's sending. */
  lemma TimerRuns(c: Config, states: seq<Net>, acts: seq<Act>, k: nat)
    requires NetRun(c, states, acts) && k < |acts| && states[k + 1].client.Busy?
    ensures acts[k].Arm? ==> states[k + 1].client.deadline == states[k].now + 35000
    ensures acts[k].Respond? ==> states[k].now < states[k].client.deadline
    ensures acts[k].Respond? ==> states[k + 1].client.deadline == Max(states[k].now + 1, states[k].client.pending.value.sentAt + 35000)
    ensures !acts[k].Arm? && !acts[k].Respond? ==> states[k].client.Busy? && states[k + 1].client.deadline == states[k].client.deadline
  {
    assert Can(c, states[k], acts[k]) && After(c, states[k], acts[k]) == states[k + 1];
    TimerStep(c, states[k], acts[k]);
  }

  lemma TimerStep(c: Config, s: Net, act: Act)
    requires Can(c, s, act) && After(c, s, act).client.Busy?
    ensures act.Arm? ==> After(c, s, act).client.deadline == s.now + 35000
    ensures act.Respond? ==> s.now < s.client.deadline && After(c, s, act).client.deadline == Max(s.now + 1, s.client.pending.value.sentAt + 35000)
    ensures !act.Arm? && !act.Respond? ==> s.client.Busy? && After(c, s, act).client.deadline == s.client.deadline
  {
    match act {
      case Respond(_) =>
      case Begin =>
      case _ =>
    }
  }
}
