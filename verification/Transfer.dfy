/**
 The transfer engine as a state machine (control/engine.go, control/store.go).

 One job, any number of executors of it, the sink, and an environment: operators,
 shutdown, process crashes, and sink rows that become visible late. Every
 mutex-held section of the store is one step; so is every connector call.
 */
module Transfer {
  import opened Basics
  import opened Records
  import opened Jobs

  /** The scan the job reads and the rows the sink held before the job was submitted. */
  datatype Config = Config(scan: Scan, initial: map<string, Record>)

  /**
   acked: pages whose Upsert returned nil. tried: pages whose Upsert was started.
   calls: how often each page was sent since the last operator resume.
   */
  datatype World = World(acked: set<nat>, tried: set<nat>, sink: map<string, Record>, calls: map<nat, nat>)

  datatype Op = Reading | Writing(page: Page)

  /** Where one call of Engine.execute stands, with the locals that are still live. */
  datatype PC =
    | Enter                                     // first authorization check
    | Top                                       // store Get at the loop head
    | Try(cur: Job, op: Op, attempt: nat)       // retry: context check and Get
    | Mark(cur: Job, op: Op, attempt: nat)      // retry: phase update
    | Call(cur: Job, op: Op, attempt: nat)      // the connector call is in flight
    | Back(cur: Job, op: Op, attempt: nat)      // retry: backoff update
    | Sleep(cur: Job, op: Op, attempt: nat)     // retry: delay
    | Fail(cur: Job, retryable: bool)           // an error left the read or the write
    | Restart(next: Time)                       // restart update
    | Finish(target: State, message: Note)    // finish update
    | Commit(cur: Job, page: Page)              // checkpoint update
    | Check                                     // Get after the checkpoint
    | Exit

  /** What the environment answers: a clock or flag, a page, an acknowledgement, an error. */
  datatype Answer = Tau(ok: bool, now: Time) | Got(page: Page) | Acked | Failure(retryable: bool)

  /** ready: this process has run Recover. stop: its context is canceled. */
  datatype Engine = Engine(job: Job, execs: seq<PC>, stop: bool, ready: bool, world: World)

  datatype Action =
    | Claim(now: Time)
    | Start
    | Prepare(assignment: Assignment, sourceFP: string, sinkFP: string)
    | Operate(op: Operator)
    | Exec(who: nat, answer: Answer)
    | Landing(p: nat, part: seq<Record>)
    | Shutdown
    | Crash
    | Recover

  function Put(sink: map<string, Record>, rs: seq<Record>): map<string, Record> {
    if rs == [] then sink else Put(sink, rs[..|rs| - 1])[rs[|rs| - 1].id := rs[|rs| - 1]]
  }

  function Calls(w: World, p: nat): nat {
    if p in w.calls then w.calls[p] else 0
  }

  predicate Live(pc: PC) {
    !pc.Exit?
  }

  /** The page checks of execute that look at the page only. */
  predicate Accepted(cur: Job, page: Page) {
    && |page.records| <= cur.spec.batchSize
    && (page.done || (page.next != "" && page.next != cur.cursor))
    && ValidPage(page.records, cur.spec.dimension)
  }

  /** Answers a contract-abiding environment can give to an executor. */
  predicate CanAnswer(c: Config, s: Engine, pc: PC, answer: Answer) {
    match pc
    case Enter | Top | Try(_, _, _) | Mark(_, _, _) | Back(_, _, _) | Fail(_, _)
       | Restart(_) | Finish(_, _) | Commit(_, _) | Check => answer.Tau?
    case Sleep(_, _, _) => answer.Tau? && (answer.ok || s.stop)
    case Call(cur, Reading, _) =>
      answer.Failure? || (answer.Got? && (Accepted(cur, answer.page) ==> ContractPage(c.scan, cur.cursor, answer.page)))
    case Call(_, Writing(_), _) => answer.Failure? || answer.Acked?
    case Exit => false
  }

  /** The effect of one step of an executor on the row, the world and its own position. */
  datatype Effect = Effect(job: Job, world: World, pc: PC)

  function SentPage(c: Config, w: World, cur: Job, op: Op): World {
    match op
    case Reading => w
    case Writing(page) =>
      var p := c.scan.pos(cur.cursor);
      w.(tried := w.tried + {p}, calls := w.calls[p := Calls(w, p) + 1])
  }

  function AfterError(cur: Job, op: Op, attempt: nat, retryable: bool): PC {
    if !retryable || attempt >= cur.spec.maxAttempts then Fail(cur, retryable) else Back(cur, op, attempt)
  }

  function ExecStep(c: Config, s: Engine, pc: PC, answer: Answer): Effect {
    var job, w := s.job, s.world;
    match pc
    case Enter =>
      if answer.Tau? && answer.ok then Effect(job, w, Top)
      else Effect(job, w, Finish(Failed, AccessRefused))
    case Top =>
      if job.state == CancelRequested then Effect(job, w, Finish(Canceled, Blank))
      else if s.stop then Effect(job, w, Finish(Queued, Blank))
      else if job.sourceExhausted then
        Effect(job, w, Finish(Succeeded, AlreadyAcknowledged))
      else if !(answer.Tau? && answer.ok) then
        Effect(job, w, Finish(Failed, AccessRefused))
      else Effect(job, w, Try(job, Reading, 1))
    case Try(cur, op, attempt) =>
      if s.stop || job.state == CancelRequested then Effect(job, w, Fail(cur, false))
      else Effect(job, w, Mark(cur, op, attempt))
    case Mark(cur, op, attempt) =>
      Effect(PhasedJob(job, if op.Reading? then PhaseRead else PhaseWrite),
             SentPage(c, w, cur, op), Call(cur, op, attempt))
    case Call(cur, op, attempt) =>
      (match answer
       case Got(page) =>
         if !Accepted(cur, page) then Effect(job, w, Fail(cur, false))
         else if page.records == [] then Effect(job, w, Commit(cur, page))
         else Effect(job, w, Try(cur, Writing(page), 1))
       case Acked =>
         if op.Reading? then Effect(job, w, pc)
         else
           Effect(job, w.(acked := w.acked + {c.scan.pos(cur.cursor)}, sink := Put(w.sink, op.page.records)),
                  Commit(cur, op.page))
       case Failure(retryable) => Effect(job, w, AfterError(cur, op, attempt, retryable))
       case Tau(_, _) => Effect(job, w, pc))
    case Back(cur, op, attempt) => Effect(BackoffJob(job), w, Sleep(cur, op, attempt))
    case Sleep(cur, op, attempt) =>
      if answer.Tau? && answer.ok then Effect(job, w, Try(cur, op, attempt + 1))
      else Effect(job, w, Fail(cur, false))
    case Fail(cur, retryable) =>
      if s.stop then Effect(job, w, Finish(Queued, Blank))
      else if job.state == CancelRequested then Effect(job, w, Finish(Canceled, Blank))
      else if retryable && job.restarts < job.spec.maxRestarts then
        Effect(job, w, Restart((if answer.Tau? then answer.now else 0) + RestartDelay(job.restarts)))
      else Effect(job, w, Finish(Failed, TransferFailed))
    case Restart(next) => Effect(RestartedJob(job, next), w, Exit)
    case Finish(target, message) => Effect(FinishedJob(job, target, message), w, Exit)
    case Commit(cur, page) =>
      Effect(CheckpointedJob(job, page, if answer.Tau? then answer.now else 0), w,
             if page.done then Exit else Check)
    case Check => Effect(job, w, if job.state == Canceled then Exit else Top)
    case Exit => Effect(job, w, Exit)
  }

  predicate Enabled(c: Config, s: Engine, a: Action) {
    match a
    case Claim(now) => s.ready && Hosted(s.job) && Due(s.job, now)
    case Start => s.ready && StartedJob(s.job).Ok?
    case Prepare(asg, sourceFP, sinkFP) => PreparedJob(s.job, asg, sourceFP, sinkFP).Ok?
    case Operate(op) => ActionJob(s.job, op).Ok?
    case Exec(who, answer) => who < |s.execs| && CanAnswer(c, s, s.execs[who], answer)
    case Landing(p, part) =>
      p in s.world.tried && p < |c.scan.pages| && forall r :: r in part ==> r in c.scan.pages[p]
    case Shutdown => true
    case Crash => true
    case Recover => !s.ready
  }

  function Resumed(w: World): World {
    w.(calls := map[])
  }

  function Executed(c: Config, s: Engine, who: nat, answer: Answer): Engine
    requires who < |s.execs|
  {
    var e := ExecStep(c, s, s.execs[who], answer);
    s.(job := e.job, world := e.world, execs := s.execs[who := e.pc])
  }

  function Step(c: Config, s: Engine, a: Action): Engine
    requires Enabled(c, s, a)
  {
    match a
    case Claim(now) => s.(job := ClaimedJob(s.job), execs := s.execs + [Enter])
    case Start => s.(job := StartedJob(s.job).value, execs := s.execs + [Enter], stop := false)
    case Prepare(asg, sourceFP, sinkFP) =>
      s.(job := PreparedJob(s.job, asg, sourceFP, sinkFP).value,
         world := if asg.generation > s.job.generation then Resumed(s.world) else s.world)
    case Operate(op) =>
      s.(job := ActionJob(s.job, op).value, world := if op == Resume then Resumed(s.world) else s.world)
    case Exec(who, answer) => Executed(c, s, who, answer)
    case Landing(p, part) => s.(world := s.world.(sink := Put(s.world.sink, part)))
    case Shutdown => s.(stop := true)
    case Crash => s.(execs := [], stop := false, ready := false)
    case Recover => s.(job := if Interrupted(s.job) then RecoveredJob(s.job) else s.job, ready := true)
  }

  /** A freshly submitted job in a process that has recovered. */
  ghost predicate Init(c: Config, s: Engine) {
    ValidScan(c.scan) && NewRun(c, s)
  }

  predicate NewRun(c: Config, s: Engine) {
    && Hosted(s.job) && s.job.state == Queued && s.job.cursor == "" && !s.job.sourceExhausted
    && s.job.records == 0 && s.job.batches == 0 && s.job.restarts == 0
    && s.job.lastCheckpointAt.None? && s.job.nextRunAt.None?
    && s.execs == [] && !s.stop && s.ready
    && s.world == World({}, {}, c.initial, map[])
  }

  /** A run: states[0] is where it starts, acts[i] leads from states[i] to states[i + 1]. */
  ghost predicate IsRun(c: Config, states: seq<Engine>, acts: seq<Action>) {
    && |states| == |acts| + 1
    && forall i :: 0 <= i < |acts| ==> Enabled(c, states[i], acts[i]) && Step(c, states[i], acts[i]) == states[i + 1]
  }

  /** No live executor of the job. */
  predicate Alone(s: Engine) {
    forall i :: 0 <= i < |s.execs| ==> !Live(s.execs[i])
  }

  /** Execution is handed out only when no executor of the job is left. */
  ghost predicate Exclusive(states: seq<Engine>, acts: seq<Action>)
    requires |states| == |acts| + 1
  {
    forall i :: 0 <= i < |acts| && (acts[i].Claim? || acts[i].Start? || acts[i].Prepare?) ==> Alone(states[i])
  }

  /** The number of pages the durable row stands for. */
  function Position(c: Config, j: Job): nat {
    if j.sourceExhausted then |c.scan.pages| else c.scan.pos(j.cursor)
  }

  /** Every record of the first k pages has been acknowledged by the sink. */
  ghost predicate PrefixAcked(c: Config, w: World, k: nat) {
    && k <= |c.scan.pages|
    && forall p: nat :: p < k ==> p in w.acked || c.scan.pages[p] == []
  }

  /** Some run leads from s to t. */
  ghost predicate Reaches(c: Config, s: Engine, s': Engine) {
    exists states, acts :: IsRun(c, states, acts) && states[0] == s && states[|acts|] == s'
  }

  lemma ReachesSelf(c: Config, s: Engine)
    ensures Reaches(c, s, s)
  {
    assert IsRun(c, [s], []);
  }

  lemma Hop(c: Config, s0: Engine, s: Engine, a: Action)
    requires Reaches(c, s0, s) && Enabled(c, s, a)
    ensures Reaches(c, s0, Step(c, s, a))
  {
    var states, acts :| IsRun(c, states, acts) && states[0] == s0 && states[|acts|] == s;
    var states', acts' := states + [Step(c, s, a)], acts + [a];
    forall i | 0 <= i < |acts'|
      ensures Enabled(c, states'[i], acts'[i]) && Step(c, states'[i], acts'[i]) == states'[i + 1]
    {
      if i < |acts| {
        assert Enabled(c, states[i], acts[i]);
      }
    }
    assert IsRun(c, states', acts');
  }

  lemma ReachesTransitive(c: Config, s: Engine, t: Engine, u: Engine)
    requires Reaches(c, s, t) && Reaches(c, t, u)
    ensures Reaches(c, s, u)
  {
    var ss, sa :| IsRun(c, ss, sa) && ss[0] == s && ss[|sa|] == t;
    var ts, ta :| IsRun(c, ts, ta) && ts[0] == t && ts[|ta|] == u;
    var states, acts := ss + ts[1..], sa + ta;
    forall i | 0 <= i < |acts|
      ensures Enabled(c, states[i], acts[i]) && Step(c, states[i], acts[i]) == states[i + 1]
    {
      if i < |sa| {
        assert Enabled(c, ss[i], sa[i]);
      } else {
        assert Enabled(c, ts[i - |sa|], ta[i - |sa|]);
      }
    }
    assert IsRun(c, states, acts);
  }
}
