/**
 A job row and the functions that the store's critical sections apply to it
 (control/store.go, control/engine.go, control/worker_jobs.go).
 */
module Jobs {
  import opened Basics
  import opened Records

  datatype Spec = Spec(
    workerID: string, name: string, source: string, sink: string,
    dimension: int, batchSize: int, maxAttempts: int, maxRestarts: int)

  datatype Owner = Owner(id: string, subject: string, realm: string)

  datatype State = Queued | Running | RetryWait | CancelRequested | Canceled | Succeeded | Failed

  datatype Phase = NoPhase | Starting | PhaseRead | PhaseWrite | Backoff | Checkpointed | Waiting

  /**
   The fixed texts a job row can carry in its error field, by meaning. One note
   stands for revoked access and for changed connections.
   */
  datatype Note =
    | Blank
    | AccessRefused | AlreadyAcknowledged | TransferFailed | TemporaryFailure
    | PolicyChanged | WorkerPolicy | WorkerCheckpoint | WorkerTransfer

  datatype Job = Job(
    id: string, spec: Spec, owner: Option<Owner>, createdAt: Time, idempotencyKey: string,
    sourceFP: string, sinkFP: string, sinkResource: string,
    state: State, phase: Phase, error: Note,
    records: int, batches: int, retries: int, runs: int, restarts: int,
    cursor: string, sourceExhausted: bool,
    lastCheckpointAt: Option<Time>, nextRunAt: Option<Time>,
    leaseID: string, leaseUntil: Option<Time>, generation: int, reportSequence: int)

  datatype Error = NotFound | Conflict | StoreFailed | Invalid | CheckpointMissing

  datatype Operator = Cancel | Resume

  predicate Active(s: State) {
    s == Running || s == CancelRequested
  }

  predicate Hosted(j: Job) {
    j.spec.workerID == ""
  }

  function NewJob(id: string, spec: Spec, owner: Option<Owner>, now: Time, key: string,
                  sourceFP: string, sinkFP: string, resource: string): Job {
    Job(id, spec, owner, now, key, sourceFP, sinkFP, resource,
        Queued, NoPhase, Blank, 0, 0, 0, 0, 0, "", false, None, None, "", None, 0, 0)
  }

  // ---- control/engine.go ----

  /** Engine.Action. */
  function ActionJob(j: Job, action: Operator): Result<Job, Error> {
    match action
    case Cancel =>
      (match j.state
       case Queued | RetryWait =>
         Ok(j.(state := Canceled, phase := NoPhase, nextRunAt := None, error := Blank))
       case Running | CancelRequested => Ok(j.(state := CancelRequested))
       case Canceled | Succeeded | Failed => Err(Conflict))
    case Resume =>
      if j.state != Failed && j.state != Canceled && j.state != RetryWait then Err(Conflict)
      else
        var leased :=
          if Hosted(j) then j
          else j.(generation := j.generation + 1, leaseID := "", leaseUntil := None, reportSequence := 0);
        Ok(leased.(state := Queued, phase := NoPhase, nextRunAt := None, restarts := 0, error := Blank))
  }

  /** The row written by Store.Claim. */
  function ClaimedJob(j: Job): Job {
    j.(state := Running, phase := Starting, nextRunAt := None, runs := j.runs + 1, error := Blank)
  }

  /** The row written by Engine.RunJob, on a customer worker. */
  function StartedJob(j: Job): Result<Job, Error> {
    if !Hosted(j) || (j.state != Queued && j.state != RetryWait) then Err(Conflict)
    else Ok(j.(state := Running, phase := Starting, runs := j.runs + 1, nextRunAt := None))
  }

  /** Engine.finish. */
  function FinishedJob(j: Job, target: State, message: Note): Job {
    var stopped := j.(phase := NoPhase, nextRunAt := None);
    if j.state == CancelRequested then stopped.(state := Canceled, error := Blank)
    else stopped.(state := target, error := message)
  }

  /** The restart scheduled after a retryable failure. */
  function RestartedJob(j: Job, next: Time): Job {
    if j.state == CancelRequested then j.(state := Canceled)
    else j.(state := RetryWait, phase := Waiting, restarts := j.restarts + 1,
            nextRunAt := Some(next), error := TemporaryFailure)
  }

  /** The checkpoint written after the sink acknowledged the whole page. */
  function CheckpointedJob(j: Job, page: Page, now: Time): Job {
    var moved := j.(
      lastCheckpointAt := Some(now), phase := Checkpointed,
      cursor := page.next, sourceExhausted := page.done,
      records := j.records + |page.records|,
      batches := if page.records == [] then j.batches else j.batches + 1);
    if j.state == CancelRequested then moved.(state := Canceled)
    else if page.done then moved.(state := Succeeded)
    else moved
  }

  function PhasedJob(j: Job, phase: Phase): Job {
    j.(phase := phase)
  }

  function BackoffJob(j: Job): Job {
    j.(retries := j.retries + 1, phase := Backoff)
  }

  /** 30 seconds doubled per restart, capped after five doublings. */
  function RestartDelay(restarts: int): Time {
    30000 * Pow2(Max(0, Min(restarts, 5)))
  }

  // ---- control/store.go ----

  /** The row written by Store.Recover for an interrupted hosted job. */
  function RecoveredJob(j: Job): Job {
    j.(state := if j.state == CancelRequested then Canceled else Queued)
  }

  predicate Interrupted(j: Job) {
    Hosted(j) && Active(j.state)
  }

  /** Due for execution: queued, or its restart time has come. */
  predicate Due(j: Job, now: Time) {
    j.state == Queued || (j.state == RetryWait && j.nextRunAt.Some? && j.nextRunAt.value <= now)
  }

  // ---- control/worker_jobs.go ----

  const LEASE: Time := 60000

  datatype Report = Report(
    leaseID: string, sequence: int, state: State, phase: Phase,
    records: int, batches: int, retries: int, restarts: int,
    checkpoint: bool, retryAfter: int, failure: Failure)

  datatype Failure = NoFailure | PolicyFailure | CheckpointFailure | TransferFailure

  datatype Assignment = Assignment(
    id: string, spec: Spec, leaseID: string, leaseUntil: Time, generation: int,
    records: int, batches: int, checkpoint: bool,
    sourceFP: string, sinkFP: string, cancelRequested: bool)

  function AssignmentOf(j: Job): Assignment
    requires j.leaseUntil.Some?
  {
    Assignment(j.id, j.spec, j.leaseID, j.leaseUntil.value, j.generation, j.records, j.batches,
               j.lastCheckpointAt.Some?, j.sourceFP, j.sinkFP, j.state == CancelRequested)
  }

  predicate Leased(j: Job, now: Time) {
    Active(j.state) && j.leaseUntil.Some? && j.leaseUntil.value > now
  }

  /** ClaimWorker may pick the job: due, or active with no live lease. */
  predicate Claimable(j: Job, now: Time) {
    Due(j, now) || (Active(j.state) && !Leased(j, now))
  }

  /** The row written when the worker's policy no longer covers the job. */
  function PolicyFailedJob(j: Job): Job {
    j.(state := Failed, error := PolicyChanged,
       leaseID := "", leaseUntil := None)
  }

  /** The row written when ClaimWorker grants a lease. */
  function LeasedJob(j: Job, lease: string, now: Time): Job {
    j.(state := if j.state == CancelRequested then CancelRequested else Running,
       phase := Starting, runs := j.runs + 1, reportSequence := 0, nextRunAt := None, error := Blank,
       leaseID := lease, leaseUntil := Some(now + LEASE))
  }

  function FailureNote(f: Failure): Note {
    match f
    case NoFailure => Blank
    case PolicyFailure => WorkerPolicy
    case CheckpointFailure => WorkerCheckpoint
    case TransferFailure => WorkerTransfer
  }

  /** The range checks made before the store is locked. */
  predicate WellFormed(r: Report) {
    && r.sequence >= 1 && r.records >= 0 && r.batches >= 0 && r.retries >= 0
    && 0 <= r.restarts <= 10 && 0 <= r.retryAfter <= 3600
    && (r.failure.NoFailure? || r.state == Failed)
  }

  /** The closure of ReportWorker on a job of the reporting worker. */
  function ReportedJob(j: Job, r: Report, now: Time): Result<Job, Error> {
    if j.leaseID != r.leaseID || j.leaseUntil.None? || j.leaseUntil.value <= now
       || r.sequence <= j.reportSequence then Err(Conflict)
    else if !Active(j.state) then Err(Conflict)
    else if r.records < j.records || r.batches < j.batches then Err(Conflict)
    else if r.records > j.records && !r.checkpoint then Err(Invalid)
    else
      var state :=
        if j.state != CancelRequested then r.state
        else if Active(r.state) then CancelRequested
        else Canceled;
      var stamp :=
        if r.checkpoint && (j.lastCheckpointAt.None? || r.records > j.records || r.batches > j.batches)
        then Some(now) else j.lastCheckpointAt;
      var next := if state == RetryWait then Some(now + 1000 * Max(1, r.retryAfter)) else None;
      Ok(j.(lastCheckpointAt := stamp,
            records := r.records, batches := r.batches, retries := r.retries, restarts := r.restarts,
            reportSequence := r.sequence, phase := r.phase, error := FailureNote(r.failure),
            state := state, nextRunAt := next,
            leaseID := if Active(state) then j.leaseID else "",
            leaseUntil := if Active(state) then Some(now + LEASE) else None))
  }

  function LocalSpec(s: Spec): Spec {
    s.(workerID := "")
  }

  /** What PrepareWorkerJob decides about a job row the worker already has. */
  function PreparedJob(j: Job, a: Assignment, sourceFP: string, sinkFP: string): Result<Job, Error> {
    if j.spec != LocalSpec(a.spec) || j.sourceFP != sourceFP || j.sinkFP != sinkFP
       || a.generation < j.generation then Err(Conflict)
    else if j.records < a.records || j.batches < a.batches || (a.checkpoint && j.lastCheckpointAt.None?)
    then Err(CheckpointMissing)
    else if a.generation > j.generation then
      Ok(j.(generation := a.generation, state := Queued, restarts := 0, error := Blank, nextRunAt := None))
    else Ok(j)
  }

  /** What PrepareWorkerJob does with an assignment the worker has never seen. */
  function AdmittedJob(a: Assignment, sourceFP: string, sinkFP: string, resource: string, now: Time)
    : Result<Job, Error>
  {
    if a.checkpoint || a.records > 0 || a.batches > 0 then Err(CheckpointMissing)
    else Ok(NewJob(a.id, LocalSpec(a.spec), None, now, "", sourceFP, sinkFP, resource)
              .(generation := a.generation))
  }
}
