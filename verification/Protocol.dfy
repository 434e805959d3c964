/**
 The lease protocol between the control plane and one customer worker, for one
 job (control/worker_jobs.go, worker/worker.go). Two stores, joined by a channel
 that loses, delays and repeats reports and loses assignments; either side may
 crash between any two critical sections.
 */
module Protocol {
  import opened Basics
  import opened Records
  import opened Jobs
  import opened Transfer
  import opened TransferSafety

  /** The monotonic timer that stops execution on the worker. */
  const TIMER: Time := 35000

  /** The time limit of one HTTP request of the worker. */
  const REQUEST: Time := 20000

  /** The time the worker may take from the answer of a claim to arming its timer. */
  const ARMING: Time := 5000

  /** begun: the executor of the assignment had made its first update when the report was taken. */
  datatype Message = Message(report: Report, sentAt: Time, begun: bool)

  datatype Launch = NotYet | Launched | Nothing

  /** Where worker.Client stands. */
  datatype Client =
    | Down
    | Idle
    | Assigned(a: Assignment, at: Time)
    | Prepared(a: Assignment, at: Time)
    | Busy(a: Assignment, launch: Launch, sequence: nat, deadline: Time, pending: Option<Message>)
    | Leaving(a: Assignment, launch: Launch)

  /**
   cp is the control plane's row, local the worker's row with its executor and the
   sink. issued, grants, sent and accepted record every assignment granted and
   when, every report ever put on the wire, and every report the control plane
   took; canceling those it answered with a cancel request. An assignment in hand
   remembers when it was received.
   */
  datatype Net = Net(
    cp: Job, now: Time, issued: seq<Assignment>, grants: seq<Time>, next: nat,
    sent: set<Message>, accepted: set<Message>, canceling: set<Message>,
    local: Option<Engine>, client: Client)

  datatype Act =
    | Tick(d: nat)
    | Operator(op: Operator)
    | Grant(lease: string)
    | PolicyFail
    | Deliver(m: Message)
    | Receive(i: nat)
    | Reject
    | Admit(sourceFP: string, sinkFP: string, resource: string)
    | CancelLocal
    | Arm
    | Begin
    | Work(a: Action)
    | SendReport
    | Respond(cancel: bool)
    | Quit
    | Join
    | Kill
    | Boot

  /** The report built from the local row by the report loop. */
  function ProgressReport(a: Assignment, j: Job, sequence: nat, now: Time): Report {
    Report(a.leaseID, sequence, j.state, j.phase, j.records, j.batches, j.retries, j.restarts,
           j.lastCheckpointAt.Some?,
           if j.nextRunAt.Some? then Max(1, Min(3600, (j.nextRunAt.value - now) / 1000 + 1)) else 0,
           if j.state == Failed then TransferFailure else NoFailure)
  }

  /** The report that refuses an assignment; its counters are the control plane's own. */
  function RejectReport(a: Assignment, f: Failure): Report {
    Report(a.leaseID, 1, Failed, NoPhase, a.records, a.batches, 0, 0, a.checkpoint, 0, f)
  }

  function AdmittedEngine(c: Config, j: Job): Engine {
    Engine(j, [], false, true, World({}, {}, c.initial, map[]))
  }

  /** PrepareWorkerJob refuses the assignment: a conflict, or a checkpoint the worker does not have. */
  predicate Refused(s: Net, a: Assignment, sourceFP: string, sinkFP: string, resource: string) {
    match s.local
    case None => AdmittedJob(a, sourceFP, sinkFP, resource, s.now).Err?
    case Some(e) => PreparedJob(e.job, a, sourceFP, sinkFP).Err?
  }

  predicate Startable(s: Net) {
    s.local.Some? && (s.local.value.job.state == Queued || s.local.value.job.state == RetryWait)
  }

  predicate Can(c: Config, s: Net, act: Act) {
    match act
    case Tick(d) => true
    case Operator(op) => ActionJob(s.cp, op).Ok?
    case Grant(lease) =>
      Claimable(s.cp, s.now) && lease != "" && forall i :: 0 <= i < |s.issued| ==> s.issued[i].leaseID != lease
    case PolicyFail => Claimable(s.cp, s.now)
    case Deliver(m) => m in s.sent && WellFormed(m.report) && ReportedJob(s.cp, m.report, s.now).Ok?
    case Receive(i) => s.client.Idle? && s.next <= i < |s.issued|
    case Reject => s.client.Assigned?
    case Admit(_, _, _) => s.client.Assigned?
    case CancelLocal => s.client.Prepared? && s.client.a.cancelRequested && Startable(s)
    case Arm => s.client.Prepared? && s.local.Some? && !(s.client.a.cancelRequested && Startable(s))
    case Begin => (s.client.Busy? || s.client.Leaving?) && s.client.launch == NotYet && s.local.Some?
    case Work(a) =>
      && s.local.Some? && (a.Landing? || (a.Exec? && (s.client.Busy? || s.client.Leaving?)))
      && Enabled(c, s.local.value, a)
    case SendReport => s.client.Busy? && s.client.pending.None? && s.local.Some?
    case Respond(cancel) =>
      && s.client.Busy? && s.client.pending.Some? && s.client.pending.value in s.accepted && s.local.Some?
      && (cancel <==> s.client.pending.value in s.canceling)
    case Quit => s.client.Assigned? || s.client.Prepared? || s.client.Busy?
    case Join => s.client.Leaving? && s.client.launch != NotYet && s.local.Some? && Alone(s.local.value)
    case Kill => !s.client.Down?
    case Boot => s.client.Down?
  }

  function Local(s: Net, e: Engine): Net {
    s.(local := Some(e))
  }

  /** The worker's context is canceled; its executor will notice. */
  function Stopping(s: Net): Net {
    s.(local := if s.local.Some? then Some(s.local.value.(stop := true)) else None,
       client := if s.client.Busy? then Leaving(s.client.a, s.client.launch) else Idle)
  }

  function After(c: Config, s: Net, act: Act): Net
    requires Can(c, s, act)
  {
    match act
    case Tick(d) => s.(now := s.now + d)
    case Operator(op) => s.(cp := ActionJob(s.cp, op).value)
    case Grant(lease) =>
      var j := LeasedJob(s.cp, lease, s.now);
      s.(cp := j, issued := s.issued + [AssignmentOf(j)], grants := s.grants + [s.now])
    case PolicyFail => s.(cp := PolicyFailedJob(s.cp))
    case Deliver(m) =>
      var j := ReportedJob(s.cp, m.report, s.now).value;
      s.(cp := j, accepted := s.accepted + {m},
         canceling := if j.state == CancelRequested then s.canceling + {m} else s.canceling)
    case Receive(i) => s.(client := Assigned(s.issued[i], s.now), next := i + 1)
    case Reject =>
      s.(client := Idle, sent := s.sent + {Message(RejectReport(s.client.a, PolicyFailure), s.now, false)})
    case Admit(sourceFP, sinkFP, resource) =>
      var a := s.client.a;
      if Refused(s, a, sourceFP, sinkFP, resource) then
        s.(client := Idle, sent := s.sent + {Message(RejectReport(a, CheckpointFailure), s.now, false)})
      else if s.local.None? then
        Local(s, AdmittedEngine(c, AdmittedJob(a, sourceFP, sinkFP, resource, s.now).value)).(client := Prepared(a, s.client.at))
      else
        Local(s, Step(c, s.local.value, Prepare(a, sourceFP, sinkFP))).(client := Prepared(a, s.client.at))
    case CancelLocal => Local(s, Step(c, s.local.value, Operate(Cancel)))
    case Arm =>
      s.(client := Busy(s.client.a, if Startable(s) then NotYet else Nothing, 0, s.now + TIMER, None))
    case Begin =>
      var client := if s.client.Busy? then Busy(s.client.a, Launched, s.client.sequence, s.client.deadline, s.client.pending)
                    else Leaving(s.client.a, Launched);
      if Enabled(c, s.local.value, Start) then
        Local(s, Step(c, s.local.value, Start).(stop := s.client.Leaving?)).(client := client)
      else s.(client := client)
    case Work(a) => Local(s, Step(c, s.local.value, a))
    case SendReport =>
      var m := Message(ProgressReport(s.client.a, s.local.value.job, s.client.sequence + 1, s.now), s.now, s.client.launch == Launched);
      s.(sent := s.sent + {m}, client := s.client.(sequence := s.client.sequence + 1, pending := Some(m)))
    case Respond(cancel) =>
      var m := s.client.pending.value;
      if !Active(m.report.state) then Stopping(s)
      else if cancel && ActionJob(s.local.value.job, Cancel).Err? then Stopping(s)
      else
        var t := if cancel then Local(s, Step(c, s.local.value, Operate(Cancel))) else s;
        if s.now >= s.client.deadline then Stopping(t)
        else t.(client := s.client.(pending := None, deadline := Max(s.now + 1, m.sentAt + TIMER)))
    case Quit => Stopping(s)
    case Join => s.(client := Idle)
    case Kill =>
      s.(client := Down, local := if s.local.Some? then Some(Step(c, s.local.value, Crash)) else None)
    case Boot =>
      s.(client := Idle,
         local := if s.local.Some? then Some(if s.local.value.ready then s.local.value else Step(c, s.local.value, Recover)) else None)
  }

  /** A freshly submitted worker job. */
  ghost predicate Fresh(c: Config, s: Net) {
    && ValidScan(c.scan)
    && !Hosted(s.cp) && s.cp.state == Queued && s.cp.records == 0 && s.cp.batches == 0
    && s.cp.lastCheckpointAt.None? && s.cp.leaseID == "" && s.cp.leaseUntil.None? && s.cp.nextRunAt.None?
    && s.issued == [] && s.grants == [] && s.next == 0 && s.sent == {} && s.accepted == {} && s.canceling == {}
    && s.local.None? && (s.client.Idle? || s.client.Down?)
  }

  ghost predicate NetRun(c: Config, states: seq<Net>, acts: seq<Act>) {
    && |states| == |acts| + 1
    && Fresh(c, states[0])
    && forall i :: 0 <= i < |acts| ==> Can(c, states[i], acts[i]) && After(c, states[i], acts[i]) == states[i + 1]
  }
}
