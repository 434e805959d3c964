/**
 Bounded work. On a run with one executor at a time and no crash or shutdown,
 every executor step, and every start of an executor, uses up a budget fixed by
 the pages left, the restarts left and the attempts left; and no page is sent
 more often than its attempts times the allowed executions.
 */
module TransferBound {
  import opened Basics
  import opened Records
  import opened Jobs
  import opened Transfer
  import opened TransferSafety
  import opened TransferExact

  /** Repeated addition, to keep the budgets linear. */
  function Times(a: nat, n: nat): nat {
    if n == 0 then 0 else Times(a, n - 1) + a
  }

  lemma {:induction false} TimesIsProduct(a: nat, n: nat)
    ensures Times(a, n) == a * n
  {
    if n > 0 {
      TimesIsProduct(a, n - 1);
    }
  }

  lemma {:induction false} TimesMonotone(a: nat, m: nat, n: nat)
    requires m <= n
    ensures Times(a, m) <= Times(a, n)
    decreases n
  {
    if m < n {
      TimesMonotone(a, m, n - 1);
    }
  }

  function Attempts(j: Job): nat {
    Max(1, j.spec.maxAttempts)
  }

  function Restarts(j: Job): nat {
    Max(0, j.restarts)
  }

  function RestartLimit(j: Job): nat {
    Max(0, j.spec.maxRestarts)
  }

  predicate Waits(s: Engine) {
    Alone(s) && (s.job.state == Queued || s.job.state == RetryWait)
  }

  // ---- how often a page is sent ----

  /**
   How often the page after the checkpoint may have been sent, seen from one
   executor: base for the executions before this one, plus its own attempts.
   */
  ghost predicate PCBudget(A: nat, base: nat, calls: nat, pc: PC) {
    match pc
    case Enter | Top | Check => calls <= base
    case Try(_, op, a) => 1 <= a <= A && calls <= base + (if op.Reading? then 0 else a - 1)
    case Mark(_, op, a) => 1 <= a <= A && calls <= base + (if op.Reading? then 0 else a - 1)
    case Call(_, op, a) => 1 <= a <= A && calls <= base + (if op.Reading? then 0 else a)
    case Back(_, op, a) => 1 <= a < A && calls <= base + (if op.Reading? then 0 else a)
    case Sleep(_, op, a) => 1 <= a < A && calls <= base + (if op.Reading? then 0 else a)
    case Finish(target, _) => calls <= base + A && target != Queued
    case _ => calls <= base + A
  }

  /** A restart is scheduled only while the budget lasts; attempts belong to this job. */
  ghost predicate PCBound(j: Job, pc: PC) {
    && (pc.Restart? ==> j.restarts < j.spec.maxRestarts)
    && (pc.Call? ==> pc.cur.spec == j.spec)
  }

  ghost predicate Budget(c: Config, s: Engine) {
    var A, R, k := Attempts(s.job), Restarts(s.job), Position(c, s.job);
    && !s.stop && s.ready
    && 0 <= s.job.restarts <= RestartLimit(s.job)
    && (forall p: nat :: Calls(s.world, p) <= Times(A, R + 1))
    && (forall p: nat :: p > k ==> Calls(s.world, p) == 0)
    && (Waits(s) ==> Calls(s.world, k) <= Times(A, R))
    && (forall i :: 0 <= i < |s.execs| && Live(s.execs[i]) ==>
         PCBudget(A, Times(A, R), Calls(s.world, k), s.execs[i]) && PCBound(s.job, s.execs[i]))
  }

  /** Steps of a run without crash and shutdown. */
  predicate Undisturbed(a: Action) {
    !a.Crash? && !a.Shutdown? && !a.Recover?
  }

  /** One executor step, in numbers: calls before, calls after, and the next position. */
  lemma StepBudget(c: Config, s: Engine, pc: PC, answer: Answer, base: nat)
    requires CanAnswer(c, s, pc, answer) && !s.stop && Current(s.job, pc)
    requires var k := Position(c, s.job); PCBudget(Attempts(s.job), base, Calls(s.world, k), pc) && PCBound(s.job, pc)
    ensures var e := ExecStep(c, s, pc, answer); var k := Position(c, s.job);
      && (!pc.Commit? ==> PCBudget(Attempts(s.job), base, Calls(e.world, k), e.pc))
      && Calls(e.world, k) <= base + Attempts(s.job)
      && PCBound(s.job, e.pc)
  {
    var A, k := Attempts(s.job), Position(c, s.job);
    match pc {
      case Mark(cur, op, a) => MarkBudget(c, s, cur, op, a, answer, base);
      case Call(cur, op, a) => CallBudget(c, s, cur, op, a, answer, base);
      case Top =>
      case Fail(_, _) =>
      case _ =>
    }
  }

  lemma MarkBudget(c: Config, s: Engine, cur: Job, op: Op, a: nat, answer: Answer, base: nat)
    requires SameCheckpoint(cur, s.job)
    requires PCBudget(Attempts(s.job), base, Calls(s.world, Position(c, s.job)), Mark(cur, op, a))
    ensures var e := ExecStep(c, s, Mark(cur, op, a), answer); var k := Position(c, s.job);
      && PCBudget(Attempts(s.job), base, Calls(e.world, k), e.pc)
      && Calls(e.world, k) <= base + Attempts(s.job) && PCBound(s.job, e.pc)
      && forall p: nat :: p != k ==> Calls(e.world, p) == Calls(s.world, p)
  {
  }

  lemma CallBudget(c: Config, s: Engine, cur: Job, op: Op, a: nat, answer: Answer, base: nat)
    requires SameCheckpoint(cur, s.job) && CanAnswer(c, s, Call(cur, op, a), answer)
    requires PCBudget(Attempts(s.job), base, Calls(s.world, Position(c, s.job)), Call(cur, op, a))
    ensures var e := ExecStep(c, s, Call(cur, op, a), answer); var k := Position(c, s.job);
      && PCBudget(Attempts(s.job), base, Calls(e.world, k), e.pc)
      && Calls(e.world, k) <= base + Attempts(s.job) && PCBound(s.job, e.pc)
      && e.world.calls == s.world.calls
  {
  }

  /** Only the page after the checkpoint is sent, and restarts stay within their limit. */
  lemma StepFrame(c: Config, s: Engine, pc: PC, answer: Answer)
    requires Live(pc) && CanAnswer(c, s, pc, answer) && Current(s.job, pc) && PCBound(s.job, pc)
    requires 0 <= s.job.restarts <= RestartLimit(s.job)
    ensures var e := ExecStep(c, s, pc, answer);
      && (forall p: nat :: p != Position(c, s.job) ==> Calls(e.world, p) == Calls(s.world, p))
      && e.job.spec == s.job.spec
      && e.job.restarts <= RestartLimit(s.job)
      && (e.job.restarts == s.job.restarts || (pc.Restart? && e.job.restarts == s.job.restarts + 1))
      && (pc.Restart? && e.job.state == RetryWait ==> e.job.restarts == s.job.restarts + 1)
  {
    if !pc.Mark? {
      assert ExecStep(c, s, pc, answer).world.calls == s.world.calls;
    }
  }

  /** An executor that leaves its job waiting has just scheduled a restart. */
  lemma WaitsAfter(c: Config, s: Engine, pc: PC, answer: Answer)
    requires Live(pc) && CanAnswer(c, s, pc, answer) && Current(s.job, pc)
    requires pc.Finish? ==> pc.target != Queued && pc.target != RetryWait
    requires !Live(ExecStep(c, s, pc, answer).pc)
    ensures var j := ExecStep(c, s, pc, answer).job;
      j.state == Queued || j.state == RetryWait ==> pc.Restart? && j.restarts == s.job.restarts + 1
  {
  }

  lemma SettledBudget(c: Config, s: Engine, who: nat, e: Effect)
    requires Sole(c, s) && Budget(c, s) && who < |s.execs| && Live(s.execs[who])
    requires var A, R, k := Attempts(s.job), Restarts(s.job), Position(c, s.job);
      && e.job.spec == s.job.spec && 0 <= s.job.restarts <= e.job.restarts <= RestartLimit(s.job)
      && Position(c, e.job) >= k
      && (forall p: nat :: p != k ==> Calls(e.world, p) == Calls(s.world, p))
      && Calls(e.world, k) <= Times(A, R) + A
    requires var A, R', k' := Attempts(s.job), Restarts(e.job), Position(c, e.job);
      && (!Live(e.pc) && (e.job.state == Queued || e.job.state == RetryWait) ==> Calls(e.world, k') <= Times(A, R'))
      && (Live(e.pc) ==> PCBudget(A, Times(A, R'), Calls(e.world, k'), e.pc) && PCBound(e.job, e.pc))
    ensures Budget(c, s.(job := e.job, world := e.world, execs := s.execs[who := e.pc]))
  {
    var s' := s.(job := e.job, world := e.world, execs := s.execs[who := e.pc]);
    var A := Attempts(s.job);
    TimesMonotone(A, Restarts(s.job) + 1, Restarts(e.job) + 1);
    assert forall i :: 0 <= i < |s.execs| && i != who ==> !Live(s'.execs[i]);
    assert s'.execs[who] == e.pc;
  }

  lemma CommitBudget(c: Config, s: Engine, who: nat, answer: Answer)
    requires Safe(c, s) && Sole(c, s) && Budget(c, s) && Enabled(c, s, Exec(who, answer)) && s.execs[who].Commit?
    ensures Budget(c, Step(c, s, Exec(who, answer)))
  {
    var pc := s.execs[who];
    var e := ExecStep(c, s, pc, answer);
    CheckpointExact(c, s.job, pc.cur, pc.page, if answer.Tau? then answer.now else 0);
    WaitsAfterCommit(c, s, pc, answer);
    SettledBudget(c, s, who, e);
  }

  lemma WaitsAfterCommit(c: Config, s: Engine, pc: PC, answer: Answer)
    requires pc.Commit? && answer.Tau?
    ensures var e := ExecStep(c, s, pc, answer);
      && (!Live(e.pc) ==> e.job.state != Queued && e.job.state != RetryWait)
      && e.job.restarts == s.job.restarts && e.job.spec == s.job.spec && e.world == s.world
      && (Live(e.pc) ==> e.pc == Check)
  {
  }

  lemma ExecBudget(c: Config, s: Engine, who: nat, answer: Answer)
    requires Safe(c, s) && Sole(c, s) && Budget(c, s) && Enabled(c, s, Exec(who, answer))
    ensures Budget(c, Step(c, s, Exec(who, answer)))
  {
    var pc := s.execs[who];
    if pc.Commit? {
      CommitBudget(c, s, who, answer);
    } else {
      var e := ExecStep(c, s, pc, answer);
      StepBudget(c, s, pc, answer, Times(Attempts(s.job), Restarts(s.job)));
      StepFrame(c, s, pc, answer);
      ExecJobExact(c, s, who, answer);
      assert e.job.restarts != s.job.restarts ==> !Live(e.pc) && Times(Attempts(s.job), Restarts(e.job)) == Times(Attempts(s.job), Restarts(s.job)) + Attempts(s.job);
      if !Live(e.pc) {
        assert SafePC(c, s.world, pc);
        WaitsAfter(c, s, pc, answer);
      }
      assert PCBound(e.job, e.pc) || !Live(e.pc);
      SettledBudget(c, s, who, e);
    }
  }

  /** A step that keeps the executors: the counts stay, or all of them start again. */
  lemma FrameBudget(c: Config, s: Engine, s': Engine)
    requires Budget(c, s) && s'.execs == s.execs && !s'.stop && s'.ready
    requires s'.job.spec == s.job.spec && Position(c, s'.job) == Position(c, s.job)
    requires s'.job.restarts == s.job.restarts && s'.world.calls == s.world.calls && (Waits(s') ==> Waits(s))
    ensures Budget(c, s')
  {
    assert forall p: nat :: Calls(s'.world, p) == Calls(s.world, p);
  }

  lemma ResetBudget(c: Config, s: Engine, s': Engine)
    requires Budget(c, s) && s'.execs == s.execs && !s'.stop && s'.ready
    requires s'.job.spec == s.job.spec && Position(c, s'.job) == Position(c, s.job)
    requires s'.job.restarts == 0 && s'.world.calls == map[]
    ensures Budget(c, s')
  {
    assert forall p: nat :: Calls(s'.world, p) == 0;
    forall i | 0 <= i < |s'.execs| && Live(s'.execs[i])
      ensures PCBudget(Attempts(s'.job), Times(Attempts(s'.job), 0), 0, s'.execs[i]) && PCBound(s'.job, s'.execs[i])
    {
      assert PCBound(s.job, s.execs[i]);
    }
  }

  lemma HandOutBudget(c: Config, s: Engine, a: Action)
    requires Sole(c, s) && Budget(c, s) && Enabled(c, s, a) && (a.Claim? || a.Start?) && Alone(s)
    ensures Budget(c, Step(c, s, a))
  {
    var s' := Step(c, s, a);
    assert Waits(s);
    assert s'.execs == s.execs + [Enter];
    assert Live(s'.execs[|s.execs|]);
    assert forall i :: 0 <= i < |s.execs| ==> s'.execs[i] == s.execs[i];
  }

  lemma OtherBudget(c: Config, s: Engine, a: Action)
    requires Safe(c, s) && Sole(c, s) && Budget(c, s) && Enabled(c, s, a) && !a.Exec? && Undisturbed(a)
    requires a.Claim? || a.Start? || a.Prepare? ==> Alone(s)
    ensures Budget(c, Step(c, s, a))
  {
    var s' := Step(c, s, a);
    if a.Claim? || a.Start? {
      HandOutBudget(c, s, a);
    } else if s'.world.calls == s.world.calls && s'.job.restarts == s.job.restarts && (Waits(s') ==> Waits(s)) {
      FrameBudget(c, s, s');
    } else {
      assert s'.job.restarts == 0 && s'.world.calls == map[];
      ResetBudget(c, s, s');
    }
  }

  ghost predicate Good(c: Config, s: Engine) {
    Safe(c, s) && Sole(c, s) && Budget(c, s)
  }

  /** One undisturbed step that hands out execution only when no executor is left. */
  ghost predicate Orderly(c: Config, s: Engine, a: Action) {
    Enabled(c, s, a) && Undisturbed(a) && (a.Claim? || a.Start? || a.Prepare? ==> Alone(s))
  }

  lemma OrderlyBudget(c: Config, s: Engine, a: Action)
    requires Safe(c, s) && Sole(c, s) && Budget(c, s) && Orderly(c, s, a)
    ensures Budget(c, Step(c, s, a))
  {
    if a.Exec? {
      ExecBudget(c, s, a.who, a.answer);
    } else {
      OtherBudget(c, s, a);
    }
  }

  // ---- how long an execution can go on ----

  /** Steps an executor can still take before its page is committed or it stops. */
  function Rank(A: nat, pc: PC): nat {
    match pc
    case Enter => 10 * A + 9
    case Top => 10 * A + 8
    case Check => 10 * A + 9
    case Try(_, op, a) => OpRank(A, op, a) + 6
    case Mark(_, op, a) => OpRank(A, op, a) + 5
    case Call(_, op, a) => OpRank(A, op, a) + 4
    case Back(_, op, a) => OpRank(A, op, a) + 3
    case Sleep(_, op, a) => OpRank(A, op, a) + 2
    case Fail(_, _) => 2
    case Restart(_) => 1
    case Finish(_, _) => 1
    case Commit(_, _) => 1
    case Exit => 0
  }

  function OpRank(A: nat, op: Op, a: nat): nat {
    (if op.Reading? then 5 * A + 6 else 0) + 5 * Max(0, A - a)
  }

  /** What one page, or one restart, can cost. */
  function PageCost(A: nat): nat {
    10 * A + 11
  }

  function RankSum(A: nat, execs: seq<PC>): nat {
    if execs == [] then 0 else RankSum(A, execs[..|execs| - 1]) + Rank(A, execs[|execs| - 1])
  }

  /** The budget of a state: pages left and restarts left, plus the execution under way or due. */
  ghost function Work(c: Config, s: Engine): nat {
    var A := Attempts(s.job);
    Times(PageCost(A), Max(0, |c.scan.pages| - Position(c, s.job) + (RestartLimit(s.job) - s.job.restarts)))
    + RankSum(A, s.execs) + (if Waits(s) then 10 * A + 10 else 0)
  }

  lemma {:induction false} RankSumUpdate(A: nat, execs: seq<PC>, who: nat, pc: PC)
    requires who < |execs|
    ensures RankSum(A, execs[who := pc]) == RankSum(A, execs) - Rank(A, execs[who]) + Rank(A, pc)
    ensures RankSum(A, execs) >= Rank(A, execs[who])
  {
    var last := |execs| - 1;
    if who == last {
      assert execs[who := pc][..last] == execs[..last];
    } else {
      RankSumUpdate(A, execs[..last], who, pc);
      assert execs[who := pc][..last] == execs[..last][who := pc];
    }
  }

  lemma RankSumAppend(A: nat, execs: seq<PC>, pc: PC)
    ensures RankSum(A, execs + [pc]) == RankSum(A, execs) + Rank(A, pc)
  {
    assert (execs + [pc])[..|execs|] == execs;
  }

  /** Within a page, and until a restart is recorded, every step lowers the rank. */
  lemma RankDrops(c: Config, s: Engine, pc: PC, answer: Answer)
    requires Live(pc) && !pc.Commit? && CanAnswer(c, s, pc, answer) && Current(s.job, pc)
    requires exists base, calls :: PCBudget(Attempts(s.job), base, calls, pc)
    ensures Rank(Attempts(s.job), ExecStep(c, s, pc, answer).pc) < Rank(Attempts(s.job), pc)
  {
  }

  /** Steps that count as work: an executor moves, or execution is handed out. */
  predicate Working(a: Action) {
    a.Exec? || a.Claim? || a.Start?
  }

  /** A step of executor who, in numbers: pages and restarts used up, and ranks. */
  lemma WorkDrops(c: Config, s: Engine, s': Engine, who: nat, pc': PC)
    requires who < |s.execs| && Live(s.execs[who]) && s'.execs == s.execs[who := pc']
    requires Attempts(s'.job) == Attempts(s.job) && RestartLimit(s'.job) == RestartLimit(s.job)
    requires Position(c, s.job) <= Position(c, s'.job) <= |c.scan.pages|
    requires 0 <= s.job.restarts <= s'.job.restarts <= RestartLimit(s.job)
    requires var A := Attempts(s.job);
      var used := Position(c, s'.job) - Position(c, s.job) + (s'.job.restarts - s.job.restarts);
      || (used == 0 && !Waits(s') && Rank(A, pc') < Rank(A, s.execs[who]))
      || (used == 1 && Rank(A, pc') + (if Waits(s') then 10 * A + 10 else 0) < Rank(A, s.execs[who]) + PageCost(A))
    ensures Work(c, s') < Work(c, s)
  {
    var A := Attempts(s.job);
    RankSumUpdate(A, s.execs, who, pc');
    assert !Waits(s);
    var left := |c.scan.pages| - Position(c, s.job) + (RestartLimit(s.job) - s.job.restarts);
    assert left > 0 ==> Times(PageCost(A), left) == Times(PageCost(A), left - 1) + PageCost(A);
  }

  lemma CommitWork(c: Config, s: Engine, who: nat, answer: Answer)
    requires Good(c, s) && Enabled(c, s, Exec(who, answer)) && s.execs[who].Commit?
    requires Good(c, Step(c, s, Exec(who, answer)))
    ensures Work(c, Step(c, s, Exec(who, answer))) < Work(c, s)
  {
    var pc := s.execs[who];
    var e := ExecStep(c, s, pc, answer);
    CheckpointExact(c, s.job, pc.cur, pc.page, if answer.Tau? then answer.now else 0);
    WaitsAfterCommit(c, s, pc, answer);
    var s' := Step(c, s, Exec(who, answer));
    assert s'.execs[who] == e.pc;
    WorkDrops(c, s, s', who, e.pc);
  }

  lemma ExecWork(c: Config, s: Engine, who: nat, answer: Answer)
    requires Good(c, s) && Enabled(c, s, Exec(who, answer)) && !s.execs[who].Commit?
    requires Good(c, Step(c, s, Exec(who, answer)))
    ensures Work(c, Step(c, s, Exec(who, answer))) < Work(c, s)
  {
    var pc := s.execs[who];
    var e := ExecStep(c, s, pc, answer);
    assert PCBound(s.job, pc);
    StepFrame(c, s, pc, answer);
    RankDrops(c, s, pc, answer);
    assert Position(c, e.job) == Position(c, s.job) by {
      ExecJobExact(c, s, who, answer);
    }
    if !Live(e.pc) {
      assert SafePC(c, s.world, pc);
      WaitsAfter(c, s, pc, answer);
    }
    var s' := Step(c, s, Exec(who, answer));
    assert s'.execs[who] == e.pc;
    WorkDrops(c, s, s', who, e.pc);
  }

  lemma OtherWork(c: Config, s: Engine, a: Action)
    requires Good(c, s) && Enabled(c, s, a) && !a.Exec? && Undisturbed(a)
    requires a.Claim? || a.Start? ==> Alone(s)
    requires !a.Prepare? && a != Operate(Resume)
    ensures Work(c, Step(c, s, a)) + (if Working(a) then 1 else 0) <= Work(c, s)
  {
    var s' := Step(c, s, a);
    match a {
      case Claim(now) => StartWork(c, s, s');
      case Start => StartWork(c, s, s');
      case Operate(op) =>
      case Landing(p, part) =>
    }
  }

  lemma StartWork(c: Config, s: Engine, s': Engine)
    requires Waits(s) && s'.execs == s.execs + [Enter] && s'.job.spec == s.job.spec
    requires Position(c, s'.job) == Position(c, s.job) && s'.job.restarts == s.job.restarts
    ensures Work(c, s') < Work(c, s)
  {
    RankSumAppend(Attempts(s.job), s.execs, Enter);
    assert Live(s'.execs[|s.execs|]);
  }

  lemma OrderlyWork(c: Config, s: Engine, a: Action)
    requires Good(c, s) && Orderly(c, s, a)
    requires !a.Prepare? && a != Operate(Resume)
    requires Good(c, Step(c, s, a))
    ensures Work(c, Step(c, s, a)) + (if Working(a) then 1 else 0) <= Work(c, s)
  {
    if a.Exec? {
      if s.execs[a.who].Commit? {
        CommitWork(c, s, a.who, a.answer);
      } else {
        ExecWork(c, s, a.who, a.answer);
      }
    } else {
      OtherWork(c, s, a);
    }
  }

  /** How many of the actions are work. */
  function WorkCount(acts: seq<Action>): nat {
    if acts == [] then 0 else WorkCount(acts[..|acts| - 1]) + if Working(acts[|acts| - 1]) then 1 else 0
  }

  /** The budget of a new job, in the numbers of its specification. */
  lemma InitialWork(c: Config, s: Engine)
    requires Init(c, s)
    ensures Work(c, s) == (10 * Attempts(s.job) + 11) * (|c.scan.pages| + RestartLimit(s.job)) + 10 * Attempts(s.job) + 10
  {
    TimesIsProduct(PageCost(Attempts(s.job)), |c.scan.pages| + RestartLimit(s.job));
  }
}
