/**
 Why executors end where they do: every retry, give-up, restart and final state in a
 run goes back to answers of the connectors and to what the executor saw of its row
 (control/engine.go, execute and retry).
 */
module TransferCauses {
  import opened Basics
  import opened Records
  import opened Jobs
  import opened Transfer
  import opened TransferSafety
  import opened TransferExact
  import opened TransferStates
  import opened TransferHosted

  // ---- what happened at one step ----

  /** At step m executor i stood at pc and took this answer. */
  predicate StoodAt(states: seq<Engine>, acts: seq<Action>, m: int, i: nat, pc: PC, answer: Answer) {
    0 <= m < |acts| < |states| && acts[m] == Exec(i, answer) && i < |states[m].execs| && states[m].execs[i] == pc
  }

  /** Call number a of an operation was answered with a failure. */
  predicate FailedAt(states: seq<Engine>, acts: seq<Action>, m: int, i: nat, cur: Job, op: Op, a: nat, retryable: bool) {
    StoodAt(states, acts, m, i, Call(cur, op, a), Failure(retryable))
  }

  /** Before step k call number a of the operation was answered with a temporary failure. */
  ghost predicate FailedBefore(states: seq<Engine>, acts: seq<Action>, k: nat, i: nat, cur: Job, op: Op, a: nat) {
    exists m :: 0 <= m < k && FailedAt(states, acts, m, i, cur, op, a, true)
  }

  /** Before step k each of the first n calls of the operation was answered with a temporary failure. */
  ghost predicate AllFailed(states: seq<Engine>, acts: seq<Action>, k: nat, i: nat, cur: Job, op: Op, n: nat) {
    forall a: nat :: 1 <= a <= n ==> FailedBefore(states, acts, k, i, cur, op, a)
  }

  /** The attempts an operation gets: at least one. */
  function Most(cur: Job): nat {
    if cur.spec.maxAttempts < 1 then 1 else cur.spec.maxAttempts
  }

  /** Before step k some operation on this snapshot used up its attempts on temporary failures. */
  ghost predicate Exhausted(states: seq<Engine>, acts: seq<Action>, k: nat, i: nat, cur: Job) {
    exists op :: AllFailed(states, acts, k, i, cur, op, Most(cur))
  }

  /** Step m stops an operation for good: a permanent failure, a page that is refused, or an interruption. */
  predicate StopsAt(states: seq<Engine>, acts: seq<Action>, m: int, i: nat, cur: Job) {
    && 0 <= m < |acts| < |states| && acts[m].Exec? && acts[m].who == i && i < |states[m].execs|
    && match states[m].execs[i]
       case Call(cur', op, _) =>
         cur' == cur && (acts[m].answer == Failure(false) || (acts[m].answer.Got? && Refuses(cur, acts[m].answer.page)))
       case Try(cur', _, _) => cur' == cur && (states[m].stop || states[m].job.state == CancelRequested)
       case Sleep(cur', _, _) => cur' == cur && states[m].stop
       case _ => false
  }

  /** The page is too large, does not advance, or holds an invalid record. */
  predicate Refuses(cur: Job, page: Page) {
    || |page.records| > cur.spec.batchSize
    || (!page.done && (page.next == "" || page.next == cur.cursor))
    || !ValidPage(page.records, cur.spec.dimension)
  }

  /** At step m executor i decides to end with this state and message, on what it sees of the row. */
  predicate DecidesAt(states: seq<Engine>, acts: seq<Action>, m: int, i: nat, target: State, message: Note) {
    && 0 <= m < |acts| < |states| && acts[m].Exec? && acts[m].who == i && i < |states[m].execs|
    && var s, pc, answer := states[m], states[m].execs[i], acts[m].answer;
       (pc == Enter || pc == Top || pc.Fail?) &&
       if pc == Enter then answer.Tau? && !answer.ok && target == Failed && message == AccessRefused
       else if s.job.state == CancelRequested && (pc == Top || !s.stop) then target == Canceled && message == Blank
       else if s.stop then target == Queued && message == Blank
       else if pc.Fail? then
         target == Failed && message == TransferFailed && (!pc.retryable || s.job.restarts >= s.job.spec.maxRestarts)
       else if s.job.sourceExhausted then target == Succeeded && message == AlreadyAcknowledged
       else target == Failed && message == AccessRefused && answer.Tau? && !answer.ok
  }

  /** At step m executor i schedules a restart: a temporary failure, restarts left, and the delay of this restart. */
  predicate SchedulesAt(states: seq<Engine>, acts: seq<Action>, m: int, i: nat, next: Time) {
    && 0 <= m < |acts| < |states| && acts[m].Exec? && acts[m].who == i && i < |states[m].execs|
    && var s, pc, answer := states[m], states[m].execs[i], acts[m].answer;
       && pc.Fail? && pc.retryable && !s.stop && s.job.state != CancelRequested && s.job.restarts < s.job.spec.maxRestarts
       && answer.Tau? && next == answer.now + RestartDelay(s.job.restarts)
  }

  /** At step m the executor of the attempts at hand gave up on them as exhausted, and scheduled this restart. */
  ghost predicate RestartCause(states: seq<Engine>, acts: seq<Action>, m: nat, i: nat, next: Time) {
    SchedulesAt(states, acts, m, i, next) && Exhausted(states, acts, m, i, states[m].execs[i].cur)
  }

  /** At step m executor i saw a row to go on from: access granted, not stopped, not canceled, not exhausted. */
  predicate LooksAt(states: seq<Engine>, acts: seq<Action>, m: int, i: nat, cur: Job) {
    && 0 <= m < |acts| < |states| && acts[m].Exec? && acts[m].who == i && i < |states[m].execs|
    && states[m].execs[i] == Top && states[m].job == cur && acts[m].answer.Tau? && acts[m].answer.ok
    && !states[m].stop && cur.state != CancelRequested && !cur.sourceExhausted
  }

  /** At step m executor i was given a page for this snapshot that passes the checks. */
  predicate ReadsAt(states: seq<Engine>, acts: seq<Action>, m: int, i: nat, cur: Job, page: Page) {
    && 0 <= m < |acts| < |states| && acts[m] == Exec(i, Got(page)) && i < |states[m].execs|
    && states[m].execs[i].Call? && states[m].execs[i].cur == cur && states[m].execs[i].op == Reading && !Refuses(cur, page)
  }

  /** At step m the sink acknowledged the page. */
  predicate AcksAt(states: seq<Engine>, acts: seq<Action>, m: int, i: nat, cur: Job, page: Page) {
    && 0 <= m < |acts| < |states| && acts[m] == Exec(i, Acked) && i < |states[m].execs|
    && states[m].execs[i].Call? && states[m].execs[i].cur == cur && states[m].execs[i].op == Writing(page)
  }

  /** A read goes back to a look at the row, a write to an accepted page that is not empty. */
  ghost predicate Begun(states: seq<Engine>, acts: seq<Action>, k: nat, i: nat, cur: Job, op: Op) {
    && (exists m :: 0 <= m < k && LooksAt(states, acts, m, i, cur))
    && (op.Writing? ==> op.page.records != [] && exists m :: 0 <= m < k && ReadsAt(states, acts, m, i, cur, op.page))
  }

  // ---- where an executor stands, and why ----

  ghost predicate Past(states: seq<Engine>, acts: seq<Action>, k: nat, i: nat, pc: PC) {
    match pc
    case Try(cur, op, a) => Attempting(states, acts, k, i, cur, op, a)
    case Mark(cur, op, a) => Attempting(states, acts, k, i, cur, op, a)
    case Call(cur, op, a) => Attempting(states, acts, k, i, cur, op, a)
    case Back(cur, op, a) => a < cur.spec.maxAttempts && Begun(states, acts, k, i, cur, op) && AllFailed(states, acts, k, i, cur, op, a)
    case Sleep(cur, op, a) => a < cur.spec.maxAttempts && Begun(states, acts, k, i, cur, op) && AllFailed(states, acts, k, i, cur, op, a)
    case Commit(cur, page) =>
      && Begun(states, acts, k, i, cur, Reading)
      && (exists m :: 0 <= m < k && ReadsAt(states, acts, m, i, cur, page))
      && (page.records != [] ==> exists m :: 0 <= m < k && AcksAt(states, acts, m, i, cur, page))
    case Fail(cur, true) => Exhausted(states, acts, k, i, cur)
    case Fail(cur, false) => exists m :: 0 <= m < k && StopsAt(states, acts, m, i, cur)
    case Restart(next) => exists m: nat :: m < k && RestartCause(states, acts, m, i, next)
    case Finish(target, message) => exists m :: 0 <= m < k && DecidesAt(states, acts, m, i, target, message)
    case _ => true
  }

  /** Attempt a is made only after a - 1 temporary failures, and within the limit. */
  ghost predicate Attempting(states: seq<Engine>, acts: seq<Action>, k: nat, i: nat, cur: Job, op: Op, a: nat) {
    1 <= a <= Most(cur) && Begun(states, acts, k, i, cur, op) && AllFailed(states, acts, k, i, cur, op, a - 1)
  }

  lemma FailedGrows(states: seq<Engine>, acts: seq<Action>, k: nat, k': nat, i: nat, cur: Job, op: Op, n: nat)
    requires k <= k' && AllFailed(states, acts, k, i, cur, op, n)
    ensures AllFailed(states, acts, k', i, cur, op, n)
  {
    forall a: nat | 1 <= a <= n
      ensures FailedBefore(states, acts, k', i, cur, op, a)
    {
      assert FailedBefore(states, acts, k, i, cur, op, a);
      var m :| 0 <= m < k && FailedAt(states, acts, m, i, cur, op, a, true);
    }
  }

  lemma OneMoreFailed(states: seq<Engine>, acts: seq<Action>, k: nat, i: nat, cur: Job, op: Op, a: nat)
    requires a >= 1 && AllFailed(states, acts, k, i, cur, op, a - 1) && FailedAt(states, acts, k, i, cur, op, a, true)
    ensures AllFailed(states, acts, k + 1, i, cur, op, a)
  {
    FailedGrows(states, acts, k, k + 1, i, cur, op, a - 1);
    assert FailedBefore(states, acts, k + 1, i, cur, op, a);
  }

  lemma PastGrows(states: seq<Engine>, acts: seq<Action>, k: nat, i: nat, pc: PC)
    requires Past(states, acts, k, i, pc)
    ensures Past(states, acts, k + 1, i, pc)
  {
    match pc {
      case Try(cur, op, a) => FailedGrows(states, acts, k, k + 1, i, cur, op, a - 1);
      case Mark(cur, op, a) => FailedGrows(states, acts, k, k + 1, i, cur, op, a - 1);
      case Call(cur, op, a) => FailedGrows(states, acts, k, k + 1, i, cur, op, a - 1);
      case Back(cur, op, a) => FailedGrows(states, acts, k, k + 1, i, cur, op, a);
      case Sleep(cur, op, a) => FailedGrows(states, acts, k, k + 1, i, cur, op, a);
      case Fail(cur, true) =>
        var op :| AllFailed(states, acts, k, i, cur, op, Most(cur));
        FailedGrows(states, acts, k, k + 1, i, cur, op, Most(cur));
      case Fail(cur, false) =>
        var m :| 0 <= m < k && StopsAt(states, acts, m, i, cur);
      case Restart(next) =>
        var m: nat :| m < k && RestartCause(states, acts, m, i, next);
      case Finish(target, message) =>
        var m :| 0 <= m < k && DecidesAt(states, acts, m, i, target, message);
      case _ =>
    }
  }

  /** The executor that moves. */
  lemma MovedPast(c: Config, states: seq<Engine>, acts: seq<Action>, k: nat)
    requires k < |acts| < |states| && Enabled(c, states[k], acts[k]) && acts[k].Exec?
    requires Past(states, acts, k, acts[k].who, states[k].execs[acts[k].who])
    ensures Past(states, acts, k + 1, acts[k].who, ExecStep(c, states[k], states[k].execs[acts[k].who], acts[k].answer).pc)
  {
    var s, i, answer := states[k], acts[k].who, acts[k].answer;
    match s.execs[i] {
      case Enter => DecidedPast(c, states, acts, k);
      case Top => DecidedPast(c, states, acts, k);
      case Fail(_, _) => DecidedPast(c, states, acts, k);
      case Call(_, _, _) => CalledPast(c, states, acts, k);
      case _ => TriedPast(c, states, acts, k);
    }
  }

  lemma DecidedPast(c: Config, states: seq<Engine>, acts: seq<Action>, k: nat)
    requires k < |acts| < |states| && Enabled(c, states[k], acts[k]) && acts[k].Exec?
    requires var pc := states[k].execs[acts[k].who]; pc == Enter || pc == Top || pc.Fail?
    requires Past(states, acts, k, acts[k].who, states[k].execs[acts[k].who])
    ensures Past(states, acts, k + 1, acts[k].who, ExecStep(c, states[k], states[k].execs[acts[k].who], acts[k].answer).pc)
  {
    var s, i := states[k], acts[k].who;
    var pc := ExecStep(c, s, s.execs[i], acts[k].answer).pc;
    if pc.Finish? {
      assert DecidesAt(states, acts, k, i, pc.target, pc.message);
    } else if pc.Restart? {
      assert RestartCause(states, acts, k, i, pc.next);
    } else {
      assert s.execs[i] == Top && pc.Try? ==> LooksAt(states, acts, k, i, pc.cur);
    }
  }

  lemma CalledPast(c: Config, states: seq<Engine>, acts: seq<Action>, k: nat)
    requires k < |acts| < |states| && Enabled(c, states[k], acts[k]) && acts[k].Exec?
    requires states[k].execs[acts[k].who].Call?
    requires Past(states, acts, k, acts[k].who, states[k].execs[acts[k].who])
    ensures Past(states, acts, k + 1, acts[k].who, ExecStep(c, states[k], states[k].execs[acts[k].who], acts[k].answer).pc)
  {
    var s, i, answer := states[k], acts[k].who, acts[k].answer;
    var pc := s.execs[i];
    if answer.Got? && !Refuses(pc.cur, answer.page) {
      assert ReadsAt(states, acts, k, i, pc.cur, answer.page);
    }
    if answer.Acked? {
      assert AcksAt(states, acts, k, i, pc.cur, pc.op.page);
    }
    if answer == Failure(true) {
      assert FailedAt(states, acts, k, i, pc.cur, pc.op, pc.attempt, true);
      OneMoreFailed(states, acts, k, i, pc.cur, pc.op, pc.attempt);
    } else if ExecStep(c, s, pc, answer).pc.Fail? {
      assert StopsAt(states, acts, k, i, pc.cur);
    }
  }

  lemma TriedPast(c: Config, states: seq<Engine>, acts: seq<Action>, k: nat)
    requires k < |acts| < |states| && Enabled(c, states[k], acts[k]) && acts[k].Exec?
    requires var pc := states[k].execs[acts[k].who]; pc != Enter && pc != Top && !pc.Fail? && !pc.Call?
    requires Past(states, acts, k, acts[k].who, states[k].execs[acts[k].who])
    ensures Past(states, acts, k + 1, acts[k].who, ExecStep(c, states[k], states[k].execs[acts[k].who], acts[k].answer).pc)
  {
    var s, i, answer := states[k], acts[k].who, acts[k].answer;
    var pc := s.execs[i];
    PastGrows(states, acts, k, i, pc);
    if ExecStep(c, s, pc, answer).pc.Fail? {
      assert StopsAt(states, acts, k, i, pc.cur);
    }
  }

  lemma NextPast(c: Config, states: seq<Engine>, acts: seq<Action>, k: nat, i: nat)
    requires k < |acts| < |states| && Enabled(c, states[k], acts[k]) && Step(c, states[k], acts[k]) == states[k + 1]
    requires i < |states[k + 1].execs|
    requires i < |states[k].execs| ==> Past(states, acts, k, i, states[k].execs[i])
    ensures Past(states, acts, k + 1, i, states[k + 1].execs[i])
  {
    var s, a := states[k], acts[k];
    if i >= |s.execs| {
      assert states[k + 1].execs[i] == Enter;
    } else if a.Exec? && a.who == i {
      MovedPast(c, states, acts, k);
    } else {
      assert states[k + 1].execs[i] == s.execs[i];
      PastGrows(states, acts, k, i, s.execs[i]);
    }
  }

  /** Every executor of every run stands where it does for these reasons. */
  lemma {:induction false} RunPast(c: Config, states: seq<Engine>, acts: seq<Action>, k: nat, i: nat)
    requires IsRun(c, states, acts) && states[0].execs == [] && k < |states| && i < |states[k].execs|
    ensures Past(states, acts, k, i, states[k].execs[i])
    decreases k
  {
    if k > 0 {
      assert Enabled(c, states[k - 1], acts[k - 1]) && Step(c, states[k - 1], acts[k - 1]) == states[k - 1 + 1];
      if i < |states[k - 1].execs| {
        RunPast(c, states, acts, k - 1, i);
      }
      NextPast(c, states, acts, k - 1, i);
    }
  }

  // ---- retries ----

  /**
   A failure counts as temporary only when every attempt of the operation failed
   temporarily, and connector calls are repeated only after temporary failures.
   */
  lemma RetriedOnlyTemporary(c: Config, states: seq<Engine>, acts: seq<Action>, k: nat, i: nat)
    requires IsRun(c, states, acts) && states[0].execs == [] && k < |states| && i < |states[k].execs|
    ensures var pc := states[k].execs[i];
      && (pc.Fail? && pc.retryable ==> Exhausted(states, acts, k, i, pc.cur))
      && (pc.Call? ==> 1 <= pc.attempt <= Most(pc.cur) && AllFailed(states, acts, k, i, pc.cur, pc.op, pc.attempt - 1))
  {
    RunPast(c, states, acts, k, i);
  }

  /** After the answer of a connector call: a permanent failure ends the operation, a temporary one only at the last attempt. */
  lemma FailureTaken(c: Config, states: seq<Engine>, acts: seq<Action>, k: nat, i: nat, cur: Job, op: Op, a: nat, retryable: bool)
    requires IsRun(c, states, acts) && FailedAt(states, acts, k, i, cur, op, a, retryable)
    ensures states[k + 1].execs[i] == if retryable && a < cur.spec.maxAttempts then Back(cur, op, a) else Fail(cur, retryable)
    ensures states[k + 1].job == states[k].job && states[k + 1].world == states[k].world
  {
  }

  /** An executor that makes no connector call any more. */
  predicate Parting(pc: PC) {
    (pc.Fail? && !pc.retryable) || pc.Finish? || pc == Exit
  }

  lemma PartingStep(c: Config, s: Engine, a: Action, i: nat)
    requires Enabled(c, s, a) && !a.Crash? && i < |s.execs| && Parting(s.execs[i])
    ensures i < |Step(c, s, a).execs| && Parting(Step(c, s, a).execs[i])
  {
  }

  /** A permanent failure is never retried: while its process lives, the executor makes no connector call and schedules no restart. */
  lemma {:induction false} PermanentEnds(c: Config, states: seq<Engine>, acts: seq<Action>, m: nat, k: nat, i: nat, cur: Job, op: Op, a: nat)
    requires IsRun(c, states, acts) && FailedAt(states, acts, m, i, cur, op, a, false) && m < k < |states|
    requires forall n :: m <= n < k ==> !acts[n].Crash?
    ensures i < |states[k].execs| && Parting(states[k].execs[i])
    decreases k
  {
    if k == m + 1 {
      FailureTaken(c, states, acts, m, i, cur, op, a, false);
    } else {
      PermanentEnds(c, states, acts, m, k - 1, i, cur, op, a);
      PartingStep(c, states[k - 1], acts[k - 1], i);
    }
  }

  // ---- restarts ----

  /** 30 seconds, doubled with each restart, at most 16 minutes. */
  lemma RestartDelays(restarts: nat)
    ensures RestartDelay(0) == 30000
    ensures restarts < 5 ==> RestartDelay(restarts + 1) == 2 * RestartDelay(restarts)
    ensures restarts >= 5 ==> RestartDelay(restarts) == 960000
  {
    assert Pow2(1) == 2 && Pow2(2) == 4 && Pow2(3) == 8 && Pow2(4) == 16 && Pow2(5) == 32;
  }

  /** A waiting row was scheduled by some executor, and waits for the time decided then. */
  ghost predicate RowWaits(states: seq<Engine>, acts: seq<Action>, k: nat)
    requires k < |states|
  {
    states[k].job.state == RetryWait ==> states[k].job.nextRunAt.Some? && ScheduledBefore(states, acts, k, states[k].job.nextRunAt.value)
  }

  ghost predicate ScheduledBefore(states: seq<Engine>, acts: seq<Action>, k: nat, next: Time) {
    exists m: nat, i: nat :: m < k && RestartCause(states, acts, m, i, next)
  }

  lemma ScheduledGrows(states: seq<Engine>, acts: seq<Action>, k: nat, next: Time)
    requires ScheduledBefore(states, acts, k, next)
    ensures ScheduledBefore(states, acts, k + 1, next)
  {
    var m: nat, i: nat :| m < k && RestartCause(states, acts, m, i, next);
  }

  lemma WaitsStep(c: Config, s: Engine, a: Action)
    requires Enabled(c, s, a) && Step(c, s, a).job.state == RetryWait
    requires a.Exec? && s.execs[a.who].Finish? ==> s.execs[a.who].target != RetryWait
    ensures if a.Exec? && s.execs[a.who].Restart? then Step(c, s, a).job.nextRunAt == Some(s.execs[a.who].next)
            else s.job.state == RetryWait && Step(c, s, a).job.nextRunAt == s.job.nextRunAt
  {
    if a.Exec? {
      var pc := s.execs[a.who];
      match pc {
        case Top =>
        case _ =>
      }
    }
  }

  lemma NextWaits(c: Config, states: seq<Engine>, acts: seq<Action>, k: nat)
    requires k < |acts| < |states| && Enabled(c, states[k], acts[k]) && Step(c, states[k], acts[k]) == states[k + 1]
    requires RowWaits(states, acts, k) && (acts[k].Exec? ==> Past(states, acts, k, acts[k].who, states[k].execs[acts[k].who]))
    ensures RowWaits(states, acts, k + 1)
  {
    var s, a := states[k], acts[k];
    if states[k + 1].job.state == RetryWait {
      NotDecided(states, acts, k);
      WaitsStep(c, s, a);
      if a.Exec? && s.execs[a.who].Restart? {
        var m: nat :| m < k && RestartCause(states, acts, m, a.who, s.execs[a.who].next);
      } else {
        ScheduledGrows(states, acts, k, s.job.nextRunAt.value);
      }
    }
  }

  /** No executor decides to finish as waiting. */
  lemma NotDecided(states: seq<Engine>, acts: seq<Action>, k: nat)
    requires k < |acts| < |states| && (acts[k].Exec? ==> acts[k].who < |states[k].execs|)
    requires acts[k].Exec? ==> Past(states, acts, k, acts[k].who, states[k].execs[acts[k].who])
    ensures acts[k].Exec? && states[k].execs[acts[k].who].Finish? ==> states[k].execs[acts[k].who].target != RetryWait
  {
    if acts[k].Exec? {
      var i := acts[k].who;
      var pc := states[k].execs[i];
      if pc.Finish? {
        var m :| 0 <= m < k && DecidesAt(states, acts, m, i, pc.target, pc.message);
      }
    }
  }

  lemma {:induction false} RunWaits(c: Config, states: seq<Engine>, acts: seq<Action>, k: nat)
    requires IsRun(c, states, acts) && states[0].execs == [] && states[0].job.state != RetryWait && k < |states|
    ensures RowWaits(states, acts, k)
    decreases k
  {
    if k > 0 {
      RunWaits(c, states, acts, k - 1);
      if acts[k - 1].Exec? {
        RunPast(c, states, acts, k - 1, acts[k - 1].who);
      }
      NextWaits(c, states, acts, k - 1);
    }
  }

  /**
   A job waits for a restart only because an operation used up its attempts on
   temporary failures while restarts were left, and a hosted worker claims it no
   sooner than the delay of that restart later.
   */
  lemma ClaimWaits(c: Config, states: seq<Engine>, acts: seq<Action>, k: nat) returns (m: nat, i: nat)
    requires IsRun(c, states, acts) && Init(c, states[0]) && k < |acts| && acts[k].Claim? && states[k].job.state == RetryWait
    ensures m < k && acts[m].Exec? && acts[m].who == i < |states[m].execs| && acts[m].answer.Tau?
    ensures var s, pc := states[m], states[m].execs[i];
      && pc.Fail? && pc.retryable && Exhausted(states, acts, m, i, pc.cur)
      && s.job.restarts < s.job.spec.maxRestarts && !s.stop && s.job.state != CancelRequested
      && acts[k].now >= acts[m].answer.now + RestartDelay(s.job.restarts)
  {
    RunWaits(c, states, acts, k);
    m, i :| m < k && RestartCause(states, acts, m, i, states[k].job.nextRunAt.value);
  }

  // ---- the labels of the state diagram ----

  /** At step m a connector failed for good, or gave a page that is refused. */
  predicate FailsForGood(states: seq<Engine>, acts: seq<Action>, m: int, i: nat, cur: Job) {
    && 0 <= m < |acts| < |states| && acts[m].Exec? && acts[m].who == i && i < |states[m].execs|
    && states[m].execs[i].Call? && states[m].execs[i].cur == cur
    && (acts[m].answer == Failure(false) || (acts[m].answer.Got? && Refuses(cur, acts[m].answer.page)))
  }

  /** An executor with an error that is not temporary had one for good, or is being stopped. */
  ghost predicate ForGood(states: seq<Engine>, acts: seq<Action>, k: nat, i: nat)
    requires k < |states|
  {
    i < |states[k].execs| && states[k].execs[i].Fail? && !states[k].execs[i].retryable ==>
      || states[k].stop || states[k].job.state == CancelRequested
      || exists m :: 0 <= m < k && FailsForGood(states, acts, m, i, states[k].execs[i].cur)
  }

  /** With one executor at a time, nothing takes back a shutdown or a cancel under it. */
  lemma OthersStand(c: Config, s: Engine, a: Action, i: nat)
    requires Held(s) && Enabled(c, s, a) && !a.Prepare? && !a.Crash? && (a == Operate(Resume) ==> !Looking(s))
    requires i < |s.execs| && Live(s.execs[i]) && !(a.Exec? && a.who == i)
    ensures s.stop ==> Step(c, s, a).stop
    ensures s.job.state == CancelRequested ==> Step(c, s, a).job.state == CancelRequested
    ensures i < |Step(c, s, a).execs| && Step(c, s, a).execs[i] == s.execs[i]
  {
    StepHeld(c, s, a);
    if a.Exec? {
      assert Live(s.execs[a.who]);
    }
  }

  lemma StopsForGood(c: Config, states: seq<Engine>, acts: seq<Action>, k: nat)
    requires IsRun(c, states, acts) && k < |acts| && acts[k].Exec?
    ensures ForGood(states, acts, k + 1, acts[k].who)
  {
    var s, i := states[k], acts[k].who;
    var pc := ExecStep(c, s, s.execs[i], acts[k].answer).pc;
    assert Enabled(c, s, acts[k]) && Step(c, s, acts[k]) == states[k + 1];
    if pc.Fail? && !pc.retryable && s.execs[i].Call? {
      assert FailsForGood(states, acts, k, i, pc.cur);
    }
  }

  lemma {:induction false} RunForGood(c: Config, states: seq<Engine>, acts: seq<Action>, k: nat, i: nat)
    requires HostedRun(c, states, acts) && NoEarlyResume(states, acts) && k < |states|
    ensures ForGood(states, acts, k, i)
    decreases k
  {
    if k > 0 && i < |states[k].execs| && states[k].execs[i].Fail? {
      var s, a := states[k - 1], acts[k - 1];
      assert Enabled(c, s, a) && Step(c, s, a) == states[k - 1 + 1];
      if a.Exec? && a.who == i {
        StopsForGood(c, states, acts, k - 1);
      } else {
        assert i < |s.execs| && s.execs[i] == states[k].execs[i];
        RunForGood(c, states, acts, k - 1, i);
        RunHeld(c, states, acts, k - 1);
        OthersStand(c, s, a, i);
      }
    }
  }

  /**
   Why an execution failed: access was refused, an error that is not temporary, or
   an operation that used up its attempts with no restart left.
   */
  ghost predicate FailureCause(states: seq<Engine>, acts: seq<Action>, m: nat, i: nat, message: Note) {
    && DecidesAt(states, acts, m, i, Failed, message)
    && var s, pc := states[m], states[m].execs[i];
       if !pc.Fail? then message == AccessRefused
       else if pc.retryable then Exhausted(states, acts, m, i, pc.cur) && s.job.restarts >= s.job.spec.maxRestarts
       else exists n :: 0 <= n < m && FailsForGood(states, acts, n, i, pc.cur)
  }

  lemma DecidedFailure(c: Config, states: seq<Engine>, acts: seq<Action>, m: nat, i: nat, message: Note)
    requires HostedRun(c, states, acts) && NoEarlyResume(states, acts) && DecidesAt(states, acts, m, i, Failed, message)
    ensures FailureCause(states, acts, m, i, message)
  {
    RunPast(c, states, acts, m, i);
    RunForGood(c, states, acts, m, i);
  }

  /** A step of the executor along the diagram, and what led to it. */
  ghost predicate Label(states: seq<Engine>, acts: seq<Action>, k: nat, i: nat)
    requires k < |acts| < |states| && i < |states[k].execs|
  {
    var a, b, pc := states[k].job.state, states[k + 1].job.state, states[k].execs[i];
    || a == b
    || (a == CancelRequested && b == Canceled && (pc.Finish? || pc.Restart? || pc.Commit?))
    || (a == Running && match b
        case Succeeded =>
          if pc.Commit? then pc.page.done && exists m :: 0 <= m < k && ReadsAt(states, acts, m, i, pc.cur, pc.page)
          else exists m :: 0 <= m < k && DecidesAt(states, acts, m, i, Succeeded, AlreadyAcknowledged)
        case Failed => pc.Finish? && exists m: nat :: m < k && FailureCause(states, acts, m, i, pc.message)
        case RetryWait => pc.Restart? && exists m: nat :: m < k && RestartCause(states, acts, m, i, pc.next)
        case Queued => exists m :: 0 <= m < k && DecidesAt(states, acts, m, i, Queued, Blank)
        case _ => false)
  }

  lemma ExecLabel(c: Config, states: seq<Engine>, acts: seq<Action>, k: nat)
    requires HostedRun(c, states, acts) && NoEarlyResume(states, acts) && k < |acts| && acts[k].Exec?
    ensures Label(states, acts, k, acts[k].who)
  {
    var s, i := states[k], acts[k].who;
    var pc := s.execs[i];
    assert Enabled(c, s, acts[k]) && Step(c, s, acts[k]) == states[k + 1];
    RunPast(c, states, acts, k, i);
    RunHeld(c, states, acts, k);
    assert Live(pc);
    if pc.Finish? {
      NoOverlap(c, states, acts);
      RunStands(c, states, acts, k);
      FinishLabel(c, states, acts, k);
    }
  }

  lemma FinishLabel(c: Config, states: seq<Engine>, acts: seq<Action>, k: nat)
    requires HostedRun(c, states, acts) && NoEarlyResume(states, acts) && k < |acts| && acts[k].Exec?
    requires states[k].execs[acts[k].who].Finish? && Past(states, acts, k, acts[k].who, states[k].execs[acts[k].who])
    requires Active(states[k].job.state) && CancelStands(states[k])
    ensures Label(states, acts, k, acts[k].who)
  {
    var s, i := states[k], acts[k].who;
    var pc := s.execs[i];
    assert Enabled(c, s, acts[k]) && Step(c, s, acts[k]) == states[k + 1];
    var m: nat :| m < k && DecidesAt(states, acts, m, i, pc.target, pc.message);
    if pc.target == Failed {
      DecidedFailure(c, states, acts, m, i, pc.message);
    }
  }

  lemma {:induction false} RunHosted(c: Config, states: seq<Engine>, acts: seq<Action>, k: nat)
    requires HostedRun(c, states, acts) && k < |states|
    ensures states[k].job.spec == states[0].job.spec && Hosted(states[k].job)
    decreases k
  {
    if k > 0 {
      RunHosted(c, states, acts, k - 1);
      var s, a := states[k - 1], acts[k - 1];
      assert Enabled(c, s, a) && Step(c, s, a) == states[k - 1 + 1];
      if a.Exec? {
        ExecSpec(c, s, s.execs[a.who], a.answer);
      }
    }
  }

  lemma ExecSpec(c: Config, s: Engine, pc: PC, answer: Answer)
    ensures ExecStep(c, s, pc, answer).job.spec == s.job.spec
  {
    match pc {
      case Top =>
      case _ =>
    }
  }

  /**
   The documented state diagram with its labels. In every hosted run without an
   early resume each action moves the state exactly along its own arrows: claims
   start due jobs, operators cancel and resume, a restart of the process requeues a
   running job and cancels one being canceled without touching the rest of its row,
   and an executor ends an execution only for the reason its arrow names.
   */
  lemma DiagramLabels(c: Config, states: seq<Engine>, acts: seq<Action>, k: nat)
    requires HostedRun(c, states, acts) && NoEarlyResume(states, acts) && k < |acts|
    ensures var j, j' := states[k].job, states[k + 1].job; var a, b := j.state, j'.state;
      match acts[k]
      case Claim(now) =>
        && (a == Queued || (a == RetryWait && j.nextRunAt.Some? && j.nextRunAt.value <= now))
        && j' == j.(state := Running, phase := Starting, runs := j.runs + 1, nextRunAt := None, error := Blank)
      case Start =>
        (a == Queued || a == RetryWait) && j' == j.(state := Running, phase := Starting, runs := j.runs + 1, nextRunAt := None)
      case Operate(Cancel) =>
        if a == Queued || a == RetryWait then b == Canceled else (a == Running || a == CancelRequested) && b == CancelRequested
      case Operate(Resume) => b == Queued && (a == Failed || a == Canceled || a == RetryWait)
      case Recover => j' == if a == Running then j.(state := Queued) else if a == CancelRequested then j.(state := Canceled) else j
      case Exec(i, _) => i < |states[k].execs| && Label(states, acts, k, i)
      case _ => j' == j
  {
    assert Enabled(c, states[k], acts[k]) && Step(c, states[k], acts[k]) == states[k + 1];
    RunHosted(c, states, acts, k);
    if acts[k].Exec? {
      ExecLabel(c, states, acts, k);
    }
  }
}
