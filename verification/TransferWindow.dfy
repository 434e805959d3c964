/**
 The budgets of TransferBound over any stretch of a run. Crashes and shutdowns may
 come before the stretch: what counts is that the process is up when it begins
 and that nothing stops or resumes the job inside it.
 */
module TransferWindow {
  import opened Basics
  import opened Records
  import opened Jobs
  import opened Transfer
  import opened TransferSafety
  import opened TransferExact
  import opened TransferBound

  // ---- what every executor looks like at any time ----

  predicate PCShape(A: nat, stop: bool, pc: PC) {
    match pc
    case Try(_, _, a) => 1 <= a <= A
    case Mark(_, _, a) => 1 <= a <= A
    case Call(_, _, a) => 1 <= a <= A
    case Back(_, _, a) => 1 <= a < A
    case Sleep(_, _, a) => 1 <= a < A
    case Finish(target, _) => target == Queued ==> stop
    case _ => true
  }

  ghost predicate Shape(s: Engine) {
    && 0 <= s.job.restarts <= RestartLimit(s.job)
    && forall i :: 0 <= i < |s.execs| && Live(s.execs[i]) ==>
         PCShape(Attempts(s.job), s.stop, s.execs[i]) && PCBound(s.job, s.execs[i])
  }

  lemma ExecShape(c: Config, s: Engine, pc: PC, answer: Answer)
    requires Live(pc) && CanAnswer(c, s, pc, answer) && Current(s.job, pc)
    requires PCShape(Attempts(s.job), s.stop, pc) && PCBound(s.job, pc) && 0 <= s.job.restarts <= RestartLimit(s.job)
    ensures var e := ExecStep(c, s, pc, answer);
      && e.job.spec == s.job.spec && 0 <= e.job.restarts <= RestartLimit(s.job)
      && (Live(e.pc) ==> PCShape(Attempts(s.job), s.stop, e.pc) && PCBound(e.job, e.pc))
  {
    match pc {
      case Top =>
      case Call(cur, op, a) =>
      case _ =>
    }
  }

  lemma OtherShape(c: Config, s: Engine, a: Action)
    requires Shape(s) && Enabled(c, s, a) && !a.Exec? && (a.Claim? || a.Start? || a.Prepare? ==> Alone(s))
    ensures Shape(Step(c, s, a))
  {
    var s' := Step(c, s, a);
    assert s'.job.spec == s.job.spec && (s'.job.restarts == s.job.restarts || s'.job.restarts == 0);
    forall i | 0 <= i < |s'.execs| && Live(s'.execs[i])
      ensures PCShape(Attempts(s'.job), s'.stop, s'.execs[i]) && PCBound(s'.job, s'.execs[i])
    {
      if i < |s.execs| {
        assert s'.execs[i] == s.execs[i] && PCBound(s.job, s.execs[i]);
      }
    }
  }

  lemma StepShape(c: Config, s: Engine, a: Action)
    requires Sole(c, s) && Shape(s) && Enabled(c, s, a) && (a.Claim? || a.Start? || a.Prepare? ==> Alone(s))
    ensures Shape(Step(c, s, a))
  {
    if a.Exec? {
      assert Live(s.execs[a.who]) && Current(s.job, s.execs[a.who]);
      ExecShape(c, s, s.execs[a.who], a.answer);
      assert forall i :: 0 <= i < |s.execs| && i != a.who ==> !Live(s.execs[i]);
    } else {
      OtherShape(c, s, a);
    }
  }

  lemma {:induction false} RunShape(c: Config, states: seq<Engine>, acts: seq<Action>, k: nat)
    requires IsRun(c, states, acts) && Init(c, states[0]) && Exclusive(states, acts) && k < |states|
    ensures Shape(states[k])
  {
    if k > 0 {
      RunShape(c, states, acts, k - 1);
      RunSole(c, states, acts, k - 1);
      StepShape(c, states[k - 1], acts[k - 1]);
    }
  }

  // ---- counting from the start of the stretch ----

  /** The same state with other call counts; they are history and steer nothing. */
  function Recounted(s: Engine, m: map<nat, nat>): Engine {
    s.(world := s.world.(calls := m))
  }

  /** The step sends page p to the sink. */
  predicate SendsPage(c: Config, s: Engine, a: Action, p: nat) {
    && a.Exec? && a.who < |s.execs| && s.execs[a.who].Mark? && s.execs[a.who].op.Writing?
    && c.scan.pos(s.execs[a.who].cur.cursor) == p
  }

  function Counted(c: Config, s: Engine, a: Action, m: map<nat, nat>): map<nat, nat> {
    if a.Exec? && a.who < |s.execs| && s.execs[a.who].Mark? && s.execs[a.who].op.Writing? then
      var p := c.scan.pos(s.execs[a.who].cur.cursor);
      m[p := (if p in m then m[p] else 0) + 1]
    else m
  }

  lemma RecountedExec(c: Config, s: Engine, pc: PC, answer: Answer, m: map<nat, nat>)
    ensures var e, e' := ExecStep(c, s, pc, answer), ExecStep(c, Recounted(s, m), pc, answer);
      && e'.job == e.job && e'.pc == e.pc && e'.world == e.world.(calls := e'.world.calls)
      && (!(pc.Mark? && pc.op.Writing?) ==> e'.world.calls == m)
  {
    match pc {
      case Top =>
      case _ =>
    }
  }

  predicate Unresumed(a: Action) {
    !a.Prepare? && a != Operate(Resume)
  }

  lemma RecountedStep(c: Config, s: Engine, a: Action, m: map<nat, nat>)
    requires Enabled(c, s, a) && Unresumed(a)
    ensures Enabled(c, Recounted(s, m), a)
    ensures Step(c, Recounted(s, m), a) == Recounted(Step(c, s, a), Counted(c, s, a, m))
  {
    if a.Exec? {
      RecountedExec(c, s, s.execs[a.who], a.answer, m);
    }
  }

  lemma RecountedSafe(c: Config, s: Engine, m: map<nat, nat>)
    requires Safe(c, s)
    ensures Safe(c, Recounted(s, m))
  {
    var w, w' := s.world, Recounted(s, m).world;
    assert forall k: nat :: PrefixAcked(c, w, k) ==> PrefixAcked(c, w', k);
    forall id | id in w'.sink
      ensures OldRow(c, w', id) || SentRow(c, w', id)
    {
      assert OldRow(c, w, id) || SentRow(c, w, id);
    }
    forall i | 0 <= i < |s.execs|
      ensures SafePC(c, w', s.execs[i])
    {
      PCGrows(c, w, w', s.execs[i]);
    }
  }

  lemma FreshBudget(c: Config, s: Engine)
    requires Sole(c, s) && Shape(s) && s.ready && !s.stop
    ensures Budget(c, Recounted(s, map[]))
  {
    var s' := Recounted(s, map[]);
    assert forall p: nat :: Calls(s'.world, p) == 0;
    forall i | 0 <= i < |s'.execs| && Live(s'.execs[i])
      ensures PCBudget(Attempts(s'.job), Times(Attempts(s'.job), Restarts(s'.job)), 0, s'.execs[i])
    {
      assert PCShape(Attempts(s.job), s.stop, s.execs[i]);
    }
  }

  /** Sends of page p from state first to state last. */
  function Sends(c: Config, states: seq<Engine>, acts: seq<Action>, first: nat, last: nat, p: nat): nat
    requires first <= last <= |acts| <= |states|
  {
    if first == last then 0
    else Sends(c, states, acts, first, last - 1, p) + if SendsPage(c, states[last - 1], acts[last - 1], p) then 1 else 0
  }

  function SendMap(c: Config, states: seq<Engine>, acts: seq<Action>, first: nat, last: nat): map<nat, nat>
    requires first <= last <= |acts| <= |states|
  {
    if first == last then map[]
    else Counted(c, states[last - 1], acts[last - 1], SendMap(c, states, acts, first, last - 1))
  }

  lemma {:induction false} SendMapCounts(c: Config, states: seq<Engine>, acts: seq<Action>, first: nat, last: nat, p: nat)
    requires first <= last <= |acts| <= |states|
    ensures var m := SendMap(c, states, acts, first, last);
      (if p in m then m[p] else 0) == Sends(c, states, acts, first, last, p)
    decreases last - first
  {
    if first < last {
      SendMapCounts(c, states, acts, first, last - 1, p);
    }
  }

  /** A stretch that begins in a running process and in which nothing stops or resumes the job. */
  ghost predicate Stretch(states: seq<Engine>, acts: seq<Action>, first: nat, last: nat) {
    && first <= last < |states| && |states| == |acts| + 1
    && states[first].ready && !states[first].stop
    && forall i :: first <= i < last ==> Undisturbed(acts[i]) && Unresumed(acts[i])
  }

  ghost predicate GoodAt(c: Config, states: seq<Engine>, acts: seq<Action>, first: nat, k: nat)
    requires first <= k < |states| && |states| == |acts| + 1
  {
    Good(c, Recounted(states[k], SendMap(c, states, acts, first, k)))
  }

  lemma StretchStart(c: Config, states: seq<Engine>, acts: seq<Action>, first: nat)
    requires IsRun(c, states, acts) && Init(c, states[0]) && Exclusive(states, acts)
    requires first < |states| && states[first].ready && !states[first].stop
    ensures GoodAt(c, states, acts, first, first)
  {
    RunSole(c, states, acts, first);
    RunShape(c, states, acts, first);
    RecountedSafe(c, states[first], map[]);
    FreshBudget(c, states[first]);
  }

  lemma StretchBudget(c: Config, s: Engine, a: Action, m: map<nat, nat>)
    requires Good(c, Recounted(s, m)) && Enabled(c, s, a) && Undisturbed(a) && Unresumed(a)
    requires a.Claim? || a.Start? ==> Alone(s)
    requires Safe(c, Step(c, s, a)) && Sole(c, Step(c, s, a))
    ensures Good(c, Recounted(Step(c, s, a), Counted(c, s, a, m)))
  {
    RecountedStep(c, s, a, m);
    RecountedSafe(c, Step(c, s, a), Counted(c, s, a, m));
    OrderlyBudget(c, Recounted(s, m), a);
  }

  lemma WorkRecounted(c: Config, s: Engine, m: map<nat, nat>)
    ensures Work(c, Recounted(s, m)) == Work(c, s)
  {
    assert Waits(Recounted(s, m)) <==> Waits(s);
  }

  lemma StretchWork(c: Config, s: Engine, a: Action, m: map<nat, nat>)
    requires Good(c, Recounted(s, m)) && Enabled(c, s, a) && Undisturbed(a) && Unresumed(a)
    requires a.Claim? || a.Start? ==> Alone(s)
    requires Good(c, Recounted(Step(c, s, a), Counted(c, s, a, m)))
    ensures Work(c, Step(c, s, a)) + (if Working(a) then 1 else 0) <= Work(c, s)
  {
    RecountedStep(c, s, a, m);
    WorkRecounted(c, s, m);
    WorkRecounted(c, Step(c, s, a), Counted(c, s, a, m));
    OrderlyWork(c, Recounted(s, m), a);
  }

  lemma {:induction false} StretchGood(c: Config, states: seq<Engine>, acts: seq<Action>, first: nat, k: nat)
    requires IsRun(c, states, acts) && Init(c, states[0]) && Exclusive(states, acts) && Stretch(states, acts, first, k)
    ensures GoodAt(c, states, acts, first, k)
    ensures states[k].job.spec == states[first].job.spec
    decreases k - first
  {
    if k == first {
      StretchStart(c, states, acts, first);
    } else {
      StretchGood(c, states, acts, first, k - 1);
      RunSole(c, states, acts, k);
      RunSole(c, states, acts, k - 1);
      StretchBudget(c, states[k - 1], acts[k - 1], SendMap(c, states, acts, first, k - 1));
      SpecKept(c, states[k - 1], acts[k - 1]);
    }
  }

  lemma SpecKept(c: Config, s: Engine, a: Action)
    requires Safe(c, s) && Sole(c, s) && Enabled(c, s, a)
    ensures Step(c, s, a).job.spec == s.job.spec
  {
    if a.Exec? {
      if !s.execs[a.who].Commit? {
        QuietProgress(c, s, s.execs[a.who], a.answer);
      }
    } else {
      OtherProgress(c, s, a);
    }
  }

  /** With one executor at a time: the sends of a page in any stretch. */
  lemma ExclusiveSends(c: Config, states: seq<Engine>, acts: seq<Action>, first: nat, last: nat, p: nat)
    requires IsRun(c, states, acts) && Init(c, states[0]) && Exclusive(states, acts) && Stretch(states, acts, first, last)
    ensures Sends(c, states, acts, first, last, p) <= Attempts(states[first].job) * (RestartLimit(states[first].job) + 1)
  {
    StretchGood(c, states, acts, first, last);
    SendMapCounts(c, states, acts, first, last, p);
    var A, j := Attempts(states[first].job), states[last].job;
    var t := Recounted(states[last], SendMap(c, states, acts, first, last));
    assert Calls(t.world, p) == Sends(c, states, acts, first, last, p);
    TimesMonotone(A, Restarts(j) + 1, RestartLimit(j) + 1);
    TimesIsProduct(A, RestartLimit(j) + 1);
  }

  lemma NextWork(c: Config, states: seq<Engine>, acts: seq<Action>, first: nat, k: nat)
    requires IsRun(c, states, acts) && Init(c, states[0]) && Exclusive(states, acts) && Stretch(states, acts, first, k + 1)
    requires first <= k
    ensures Work(c, states[k + 1]) + (if Working(acts[k]) then 1 else 0) <= Work(c, states[k])
  {
    StretchGood(c, states, acts, first, k);
    StretchGood(c, states, acts, first, k + 1);
    StretchWork(c, states[k], acts[k], SendMap(c, states, acts, first, k));
  }

  lemma WorkCountNext(acts: seq<Action>, first: nat, last: nat)
    requires first < last <= |acts|
    ensures WorkCount(acts[first..last]) == WorkCount(acts[first..last - 1]) + if Working(acts[last - 1]) then 1 else 0
  {
    assert acts[first..last][..last - 1 - first] == acts[first..last - 1];
  }

  /** With one executor at a time: the steps of executors in any stretch. */
  lemma {:induction false} ExclusiveSteps(c: Config, states: seq<Engine>, acts: seq<Action>, first: nat, last: nat)
    requires IsRun(c, states, acts) && Init(c, states[0]) && Exclusive(states, acts) && Stretch(states, acts, first, last)
    ensures WorkCount(acts[first..last]) + Work(c, states[last]) <= Work(c, states[first])
    decreases last
  {
    if first < last {
      ExclusiveSteps(c, states, acts, first, last - 1);
      NextWork(c, states, acts, first, last - 1);
      WorkCountNext(acts, first, last);
    }
  }
}
