/**
 The control plane's whole job table over all its critical sections: destination
 exclusion for hosted jobs, lease safety for workers, and progress that is never
 taken back. The guards and rows are those of JobStore and Jobs.
 */
module ControlTable {
  import opened Basics
  import opened Records
  import opened Jobs
  import opened JobStore

  /** The updates a hosted executor makes to its row. */
  datatype Change =
    | Finishing(target: State, message: Note)
    | Restarting(next: Time)
    | Checkpointing(page: Page, now: Time)
    | Phasing(phase: Phase)
    | BackingOff

  function Changed(j: Job, change: Change): Job {
    match change
    case Finishing(target, message) => FinishedJob(j, target, message)
    case Restarting(next) => RestartedJob(j, next)
    case Checkpointing(page, now) => CheckpointedJob(j, page, now)
    case Phasing(phase) => PhasedJob(j, phase)
    case BackingOff => BackoffJob(j)
  }

  datatype Control = Control(jobs: map<string, Job>, now: Time)

  datatype Move =
    | Tick(d: nat)
    | Submit(id: string, job: Job)
    | Claim(id: string)
    | Execute(id: string, change: Change)
    | Operate(id: string, op: Operator)
    | RecoverRow(id: string)
    | Lease(w: Worker, id: string, lease: string)
    | Drop(w: Worker, id: string)
    | Take(w: Worker, id: string, report: Report)

  predicate Allowed(s: Control, m: Move) {
    match m
    case Tick(_) => true
    case Submit(id, job) =>
      && id !in s.jobs && job.id == id && job.state == Queued && job.leaseID == "" && job.leaseUntil.None?
      && job.records == 0 && job.batches == 0
      && (job.idempotencyKey != "" ==> forall k :: k in s.jobs ==> !Submitted(s.jobs[k], job.idempotencyKey, job.owner))
    case Claim(id) => Eligible(s.jobs, id, s.now)
    case Execute(id, change) =>
      id in s.jobs && Hosted(s.jobs[id]) && (change.Finishing? ==> !Active(change.target) && change.target != RetryWait)
    case Operate(id, op) => id in s.jobs && ActionJob(s.jobs[id], op).Ok?
    case RecoverRow(id) => id in s.jobs && Interrupted(s.jobs[id])
    case Lease(w, id, lease) => w.id != "" && lease != "" && Oldest(s.jobs, w, id, s.now)
    case Drop(w, id) => w.id != "" && Oldest(s.jobs, w, id, s.now)
    case Take(w, id, report) =>
      && w.id != "" && id in s.jobs && Mine(s.jobs[id], w)
      && WellFormed(report) && ReportedJob(s.jobs[id], report, s.now).Ok?
  }

  /** The row a move writes. */
  function NewRow(s: Control, m: Move): Job
    requires Allowed(s, m) && !m.Tick?
  {
    match m
    case Submit(_, job) => job
    case Claim(id) => ClaimedJob(s.jobs[id])
    case Execute(id, change) => Changed(s.jobs[id], change)
    case Operate(id, op) => ActionJob(s.jobs[id], op).value
    case RecoverRow(id) => RecoveredJob(s.jobs[id])
    case Lease(_, id, lease) => LeasedJob(s.jobs[id], lease, s.now)
    case Drop(_, id) => PolicyFailedJob(s.jobs[id])
    case Take(_, id, report) => ReportedJob(s.jobs[id], report, s.now).value
  }

  function Next(s: Control, m: Move): Control
    requires Allowed(s, m)
  {
    match m
    case Tick(d) => s.(now := s.now + d)
    case _ => s.(jobs := s.jobs[m.id := NewRow(s, m)])
  }

  ghost predicate History(states: seq<Control>, moves: seq<Move>) {
    && |states| == |moves| + 1 && states[0].jobs == map[]
    && forall i :: 0 <= i < |moves| ==> Allowed(states[i], moves[i]) && Next(states[i], moves[i]) == states[i + 1]
  }

  // ---- the invariants ----

  /** No two hosted jobs with the same destination are active. */
  predicate Excluded(jobs: map<string, Job>) {
    forall a, b :: a in jobs && b in jobs && a != b
      && Hosted(jobs[a]) && Hosted(jobs[b]) && Active(jobs[a].state) && Active(jobs[b].state)
      ==> jobs[a].sinkResource != jobs[b].sinkResource
  }

  /** A worker job holds a lease exactly while it is active. */
  predicate WorkerRow(j: Job) {
    !Hosted(j) ==>
      && (Active(j.state) <==> j.leaseID != "")
      && (Active(j.state) <==> j.leaseUntil.Some?)
  }

  /** Each worker has at most one job under an unexpired lease. */
  predicate OneLease(s: Control) {
    forall a, b :: a in s.jobs && b in s.jobs && a != b && !Hosted(s.jobs[a]) && !Hosted(s.jobs[b])
      && s.jobs[a].spec.workerID == s.jobs[b].spec.workerID && s.jobs[a].owner == s.jobs[b].owner
      ==> !Leased(s.jobs[a], s.now) || !Leased(s.jobs[b], s.now)
  }

  /** An owner's idempotency key stands for one job. */
  predicate OneJobPerKey(jobs: map<string, Job>) {
    forall a, b :: a in jobs && b in jobs && a != b && jobs[a].idempotencyKey != "" ==>
      !Submitted(jobs[b], jobs[a].idempotencyKey, jobs[a].owner)
  }

  /** A row that waits for a restart says when; it cannot wait forever. */
  predicate Scheduled(j: Job) {
    j.state == RetryWait ==> j.nextRunAt.Some?
  }

  predicate Sound(s: Control) {
    && (forall id :: id in s.jobs ==> s.jobs[id].id == id && WorkerRow(s.jobs[id]) && Scheduled(s.jobs[id]))
    && Excluded(s.jobs) && OneLease(s) && OneJobPerKey(s.jobs)
  }

  /** A move changes one row, keeps what identifies it, and never lowers its counters. */
  lemma RowFrame(s: Control, m: Move)
    requires Allowed(s, m) && !m.Tick? && m.id in s.jobs
    ensures var j, j' := s.jobs[m.id], NewRow(s, m);
      && j'.id == j.id && j'.spec == j.spec && j'.owner == j.owner && j'.sinkResource == j.sinkResource
      && j'.createdAt == j.createdAt && j'.idempotencyKey == j.idempotencyKey
      && j.records <= j'.records && j.batches <= j'.batches && j.generation <= j'.generation
  {
  }

  /** Only Claim makes a hosted row active; only a grant gives a worker row a live lease. */
  lemma Activations(s: Control, m: Move)
    requires Allowed(s, m) && !m.Tick?
    ensures !m.Claim? && Hosted(NewRow(s, m)) && Active(NewRow(s, m).state) ==> m.id in s.jobs && Active(s.jobs[m.id].state)
    ensures !m.Lease? && !Hosted(NewRow(s, m)) && Leased(NewRow(s, m), s.now) ==> m.id in s.jobs && Leased(s.jobs[m.id], s.now)
  {
  }

  lemma TakenSound(s: Control, m: Move)
    requires Allowed(s, m) && m.Take? && s.jobs[m.id].id == m.id && WorkerRow(s.jobs[m.id])
    ensures NewRow(s, m).id == m.id && WorkerRow(NewRow(s, m)) && Scheduled(NewRow(s, m))
  {
  }

  lemma HostedSound(s: Control, m: Move)
    requires Allowed(s, m) && (m.Claim? || m.Execute? || m.RecoverRow?) && s.jobs[m.id].id == m.id && Scheduled(s.jobs[m.id])
    ensures NewRow(s, m).id == m.id && WorkerRow(NewRow(s, m)) && Scheduled(NewRow(s, m))
  {
  }

  lemma RowSound(s: Control, m: Move)
    requires Sound(s) && Allowed(s, m) && !m.Tick?
    ensures NewRow(s, m).id == m.id && WorkerRow(NewRow(s, m)) && Scheduled(NewRow(s, m))
  {
    if m.Take? {
      TakenSound(s, m);
    } else if m.Claim? || m.Execute? || m.RecoverRow? {
      HostedSound(s, m);
    } else if m.id in s.jobs {
      assert WorkerRow(s.jobs[m.id]) && Scheduled(s.jobs[m.id]);
    }
  }

  lemma ExclusionKept(s: Control, m: Move)
    requires Sound(s) && Allowed(s, m) && !m.Tick?
    ensures Excluded(Next(s, m).jobs)
  {
    Activations(s, m);
    if m.id in s.jobs {
      RowFrame(s, m);
    }
  }

  lemma OneLeaseKept(s: Control, m: Move)
    requires Sound(s) && Allowed(s, m) && !m.Tick?
    ensures OneLease(Next(s, m))
  {
    Activations(s, m);
    if m.id in s.jobs {
      RowFrame(s, m);
    }
    if m.Lease? {
      assert forall id :: id in s.jobs && Mine(s.jobs[id], m.w) ==> !Leased(s.jobs[id], s.now);
    }
  }

  lemma KeysKept(s: Control, m: Move)
    requires Sound(s) && Allowed(s, m) && !m.Tick?
    ensures OneJobPerKey(Next(s, m).jobs)
  {
    if m.id in s.jobs {
      RowFrame(s, m);
    }
  }

  lemma SoundKept(s: Control, m: Move)
    requires Sound(s) && Allowed(s, m)
    ensures Sound(Next(s, m))
  {
    if !m.Tick? {
      RowSound(s, m);
      ExclusionKept(s, m);
      OneLeaseKept(s, m);
      KeysKept(s, m);
    }
  }

  /**
   In every state of every history: no two rows of hosted jobs with the same
   destination are active, no worker holds two unexpired leases, a worker job holds
   a lease exactly while it is running or being canceled, a waiting row says when,
   and no key names two jobs. What the executors of such rows do is another matter:
   see Destinations.
   */
  lemma {:induction false} HistorySound(states: seq<Control>, moves: seq<Move>, k: nat)
    requires History(states, moves) && k < |states|
    ensures Sound(states[k])
  {
    if k > 0 {
      HistorySound(states, moves, k - 1);
      SoundKept(states[k - 1], moves[k - 1]);
    }
  }

  /**
   No job is stuck. Once the clock has passed some time, a waiting hosted job is
   eligible unless its destination is in use, and a worker job that is not over
   can be claimed.
   */
  lemma NeverStuck(states: seq<Control>, moves: seq<Move>, k: nat, id: string) returns (due: Time)
    requires History(states, moves) && k < |states| && id in states[k].jobs
    ensures var j := states[k].jobs[id];
      forall now :: now >= due ==>
        && (Hosted(j) && (j.state == Queued || j.state == RetryWait) && IdleResource(states[k].jobs, j.sinkResource) ==>
              Eligible(states[k].jobs, id, now))
        && (!Hosted(j) && j.state != Canceled && j.state != Succeeded && j.state != Failed ==> Claimable(j, now))
  {
    HistorySound(states, moves, k);
    var j := states[k].jobs[id];
    assert WorkerRow(j) && Scheduled(j);
    due := Max(if j.nextRunAt.Some? then j.nextRunAt.value else 0, if j.leaseUntil.Some? then j.leaseUntil.value else 0);
  }

  lemma StepCounters(s: Control, m: Move, id: string)
    requires Allowed(s, m) && id in s.jobs
    ensures id in Next(s, m).jobs
    ensures var j, j' := s.jobs[id], Next(s, m).jobs[id];
      j.records <= j'.records && j.batches <= j'.batches && j.generation <= j'.generation
  {
    if !m.Tick? && m.id == id {
      RowFrame(s, m);
    }
  }

  /** Over any stretch of a history the counters and the generation of a job never go down. */
  lemma {:induction false} CountersNeverDrop(states: seq<Control>, moves: seq<Move>, i: nat, k: nat, id: string)
    requires History(states, moves) && i <= k < |states| && id in states[i].jobs
    ensures id in states[k].jobs
    ensures var j, j' := states[i].jobs[id], states[k].jobs[id];
      j.records <= j'.records && j.batches <= j'.batches && j.generation <= j'.generation
    decreases k
  {
    if i < k {
      CountersNeverDrop(states, moves, i, k - 1, id);
      StepCounters(states[k - 1], moves[k - 1], id);
    }
  }

  // ---- what becomes of one row ----

  /** The move writes the row of this job. */
  predicate Touches(m: Move, id: string) {
    !m.Tick? && m.id == id
  }

  lemma StepElsewhere(s: Control, m: Move, id: string)
    requires Allowed(s, m) && id in s.jobs && !Touches(m, id)
    ensures id in Next(s, m).jobs && Next(s, m).jobs[id] == s.jobs[id]
  {
  }

  /** One move on a row with a pending cancel: it stands, or the job is canceled; only a policy drop fails the job instead. */
  lemma CancelStep(s: Control, m: Move)
    requires Allowed(s, m) && !m.Tick? && m.id in s.jobs && s.jobs[m.id].state == CancelRequested
    ensures var k := NewRow(s, m);
      k.state == CancelRequested || k.state == Canceled || (m.Drop? && !Hosted(k) && k.state == Failed)
    ensures m.Drop? ==> s.jobs[m.id].leaseUntil.None? || s.jobs[m.id].leaseUntil.value <= s.now
  {
    if m.Drop? {
      assert WorkerEligible(s.jobs, m.w, m.id, s.now);
    }
  }

  /** At some moment after the first and not after the last the job is canceled. */
  predicate CanceledBetween(states: seq<Control>, i: nat, k: nat, id: string)
    requires k < |states|
  {
    exists n :: i < n <= k && id in states[n].jobs && states[n].jobs[id].state == Canceled
  }

  /**
   A cancel request is never lost. Whatever claims, reports, checkpoints, restarts
   and recoveries come after it, in any number and any order, it stands until the
   job is canceled, unless the worker's policy drops the job.
   */
  lemma {:induction false} CancelSurvives(states: seq<Control>, moves: seq<Move>, i: nat, k: nat, id: string)
    requires History(states, moves) && i <= k < |states| && id in states[i].jobs && states[i].jobs[id].state == CancelRequested
    requires forall n :: i <= n < k && Touches(moves[n], id) ==> !moves[n].Drop?
    ensures id in states[k].jobs && (states[k].jobs[id].state == CancelRequested || CanceledBetween(states, i, k, id))
    decreases k
  {
    if i < k {
      CancelSurvives(states, moves, i, k - 1, id);
      StepCounters(states[k - 1], moves[k - 1], id);
      if CanceledBetween(states, i, k - 1, id) {
        assert CanceledBetween(states, i, k, id);
      } else if Touches(moves[k - 1], id) {
        CancelStep(states[k - 1], moves[k - 1]);
      }
    }
  }

  /** How often an operator resumed the job between two states. */
  function Resumes(moves: seq<Move>, i: nat, k: nat, id: string): nat
    requires i <= k <= |moves|
  {
    if i == k then 0 else Resumes(moves, i, k - 1, id) + if moves[k - 1] == Operate(id, Resume) then 1 else 0
  }

  lemma GenerationStep(s: Control, m: Move)
    requires Allowed(s, m) && !m.Tick? && m.id in s.jobs
    ensures NewRow(s, m).spec == s.jobs[m.id].spec
    ensures NewRow(s, m).generation == s.jobs[m.id].generation + if m == Operate(m.id, Resume) && !Hosted(s.jobs[m.id]) then 1 else 0
  {
  }

  /** The generation of a worker job counts its resumes, and nothing else; that of a hosted job stays. */
  lemma {:induction false} GenerationCountsResumes(states: seq<Control>, moves: seq<Move>, i: nat, k: nat, id: string)
    requires History(states, moves) && i <= k < |states| && id in states[i].jobs
    ensures id in states[k].jobs && states[k].jobs[id].spec == states[i].jobs[id].spec
    ensures states[k].jobs[id].generation == states[i].jobs[id].generation + if Hosted(states[i].jobs[id]) then 0 else Resumes(moves, i, k, id)
    decreases k
  {
    if i < k {
      GenerationCountsResumes(states, moves, i, k - 1, id);
      if Touches(moves[k - 1], id) {
        GenerationStep(states[k - 1], moves[k - 1]);
      } else {
        StepElsewhere(states[k - 1], moves[k - 1], id);
      }
    }
  }

  /** A worker job that is over keeps its whole row until an operator resumes it; a succeeded one keeps it for good. */
  lemma {:induction false} OverUntilResume(states: seq<Control>, moves: seq<Move>, i: nat, k: nat, id: string)
    requires History(states, moves) && i <= k < |states| && id in states[i].jobs && !Hosted(states[i].jobs[id])
    requires var state := states[i].jobs[id].state;
      state == Succeeded || ((state == Canceled || state == Failed) && forall n :: i <= n < k ==> moves[n] != Operate(id, Resume))
    ensures id in states[k].jobs && states[k].jobs[id] == states[i].jobs[id]
    decreases k
  {
    if i < k {
      OverUntilResume(states, moves, i, k - 1, id);
      if Touches(moves[k - 1], id) {
        OverStep(states[k - 1], moves[k - 1]);
      } else {
        StepElsewhere(states[k - 1], moves[k - 1], id);
      }
    }
  }

  /** The one move on a worker job that is over, and not resumed by it: none. */
  lemma OverStep(s: Control, m: Move)
    requires Allowed(s, m) && !m.Tick? && m.id in s.jobs && !Hosted(s.jobs[m.id])
    requires s.jobs[m.id].state == Succeeded || s.jobs[m.id].state == Canceled || s.jobs[m.id].state == Failed
    ensures m == Operate(m.id, Resume) && s.jobs[m.id].state != Succeeded
  {
  }

  /**
   A job that waits for its restart is left alone until its time has come: unless an
   operator steps in or a leftover executor of a hosted job writes, its row stays
   as it is before then.
   */
  lemma {:induction false} WaitsForRestart(states: seq<Control>, moves: seq<Move>, i: nat, k: nat, id: string)
    requires History(states, moves) && i <= k < |states| && id in states[i].jobs && states[i].jobs[id].state == RetryWait
    requires forall n :: i <= n < k && Touches(moves[n], id) ==> !moves[n].Operate? && !moves[n].Execute?
    requires states[i].jobs[id].nextRunAt.Some? && states[k].now < states[i].jobs[id].nextRunAt.value
    ensures id in states[k].jobs && states[k].jobs[id] == states[i].jobs[id]
    decreases k
  {
    if i < k {
      var s, m := states[k - 1], moves[k - 1];
      assert s.now <= Next(s, m).now;
      WaitsForRestart(states, moves, i, k - 1, id);
      if Touches(m, id) {
        WaitStep(s, m);
      } else {
        StepElsewhere(s, m, id);
      }
    }
  }

  /** Every claim, grant and drop of a waiting job comes at its restart time or later. */
  lemma WaitStep(s: Control, m: Move)
    requires Allowed(s, m) && !m.Tick? && m.id in s.jobs && s.jobs[m.id].state == RetryWait && !m.Operate? && !m.Execute?
    ensures s.jobs[m.id].nextRunAt.Some? && s.jobs[m.id].nextRunAt.value <= s.now
  {
    if m.Lease? || m.Drop? {
      assert WorkerEligible(s.jobs, m.w, m.id, s.now);
    }
  }
}
