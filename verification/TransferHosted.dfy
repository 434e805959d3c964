/**
 Hosted runs. That a job has one executor at a time follows from the guards of the
 code and one fact about the stop decision: no operator resume comes between a
 checkpoint and the look at the state after it. This module proves that, and
 states the exact results for such runs.
 */
module TransferHosted {
  import opened Basics
  import opened Records
  import opened Jobs
  import opened Transfer
  import opened TransferSafety
  import opened TransferExact
  import opened TransferBound
  import opened TransferStates
  import opened TransferWindow

  /** A run of the hosted engine from submission; only customer workers prepare assignments. */
  ghost predicate HostedRun(c: Config, states: seq<Engine>, acts: seq<Action>) {
    IsRun(c, states, acts) && Init(c, states[0]) && forall i :: 0 <= i < |acts| ==> !acts[i].Prepare?
  }

  predicate Looking(s: Engine) {
    exists i :: 0 <= i < |s.execs| && s.execs[i] == Check
  }

  /** No operator resumes the job while an executor is between its checkpoint and its look at the state. */
  predicate NoEarlyResume(states: seq<Engine>, acts: seq<Action>)
    requires |states| == |acts| + 1
  {
    forall i :: 0 <= i < |acts| && acts[i] == Operate(Resume) ==> !Looking(states[i])
  }

  /** The stop decision is taken on the state that the checkpoint wrote: the look is the next step of all. */
  predicate LooksAtOnce(states: seq<Engine>, acts: seq<Action>)
    requires |states| == |acts| + 1
  {
    forall i :: 0 <= i < |acts| - 1 && IsCommit(states[i], acts[i]) && !states[i].execs[acts[i].who].page.done ==>
      acts[i + 1].Exec? && acts[i + 1].who == acts[i].who
  }

  /** Who is at the look has just written its checkpoint. */
  predicate JustCommitted(states: seq<Engine>, acts: seq<Action>, k: nat)
    requires |states| == |acts| + 1 && k < |states|
  {
    forall who :: 0 <= who < |states[k].execs| && states[k].execs[who] == Check ==>
      && k > 0 && IsCommit(states[k - 1], acts[k - 1]) && acts[k - 1].who == who
      && !states[k - 1].execs[who].page.done
  }

  lemma CheckFollowsCommit(c: Config, s: Engine, pc: PC, answer: Answer)
    requires ExecStep(c, s, pc, answer).pc == Check && CanAnswer(c, s, pc, answer)
    ensures pc.Commit? && !pc.page.done
  {
    match pc {
      case Top =>
      case _ =>
    }
  }

  lemma {:induction false} RunJustCommitted(c: Config, states: seq<Engine>, acts: seq<Action>, k: nat)
    requires IsRun(c, states, acts) && Init(c, states[0]) && LooksAtOnce(states, acts) && k < |states|
    ensures JustCommitted(states, acts, k)
  {
    if k > 0 {
      RunJustCommitted(c, states, acts, k - 1);
      var s, a := states[k - 1], acts[k - 1];
      forall who | 0 <= who < |states[k].execs| && states[k].execs[who] == Check
        ensures IsCommit(s, a) && a.who == who && !s.execs[who].page.done
      {
        if a.Exec? && a.who == who {
          CheckFollowsCommit(c, s, s.execs[who], a.answer);
        }
      }
    }
  }

  lemma LookingAtOnce(c: Config, states: seq<Engine>, acts: seq<Action>)
    requires IsRun(c, states, acts) && Init(c, states[0]) && LooksAtOnce(states, acts)
    ensures NoEarlyResume(states, acts)
  {
    forall i | 0 <= i < |acts| && acts[i] == Operate(Resume)
      ensures !Looking(states[i])
    {
      RunJustCommitted(c, states, acts, i);
    }
  }

  // ---- one executor at a time ----

  /** A live executor means an active row, or it is about to see that its job was canceled. */
  predicate Held(s: Engine) {
    && Single(s.execs) && (!s.ready ==> s.execs == [])
    && forall i :: 0 <= i < |s.execs| && Live(s.execs[i]) ==>
         Active(s.job.state) || (s.execs[i] == Check && s.job.state == Canceled)
  }

  lemma ExecHeld(c: Config, s: Engine, pc: PC, answer: Answer)
    requires Live(pc) && CanAnswer(c, s, pc, answer)
    requires Active(s.job.state) || (pc == Check && s.job.state == Canceled)
    ensures var e := ExecStep(c, s, pc, answer);
      Live(e.pc) ==> Active(e.job.state) || (e.pc == Check && e.job.state == Canceled)
  {
    match pc {
      case Top =>
      case _ =>
    }
  }

  lemma ActionHeld(s: Engine, op: Operator)
    requires Held(s) && ActionJob(s.job, op).Ok? && (op == Resume ==> !Looking(s))
    ensures Held(s.(job := ActionJob(s.job, op).value))
  {
  }

  lemma StepHeld(c: Config, s: Engine, a: Action)
    requires Held(s) && Enabled(c, s, a) && !a.Prepare? && (a == Operate(Resume) ==> !Looking(s))
    ensures Held(Step(c, s, a))
    ensures a.Claim? || a.Start? ==> Alone(s)
  {
    match a {
      case Exec(who, answer) =>
        assert Live(s.execs[who]);
        ExecHeld(c, s, s.execs[who], answer);
        assert forall i :: 0 <= i < |s.execs| && i != who ==> !Live(s.execs[i]);
      case Operate(op) =>
        ActionHeld(s, op);
        assert Step(c, s, a).execs == s.execs;
      case _ =>
    }
  }

  lemma {:induction false} RunHeld(c: Config, states: seq<Engine>, acts: seq<Action>, k: nat)
    requires HostedRun(c, states, acts) && NoEarlyResume(states, acts) && k < |states|
    ensures Held(states[k])
  {
    if k > 0 {
      RunHeld(c, states, acts, k - 1);
      StepHeld(c, states[k - 1], acts[k - 1]);
    }
  }

  /** The guards of the code hand out execution only when no executor is left. */
  lemma NoOverlap(c: Config, states: seq<Engine>, acts: seq<Action>)
    requires HostedRun(c, states, acts) && NoEarlyResume(states, acts)
    ensures Exclusive(states, acts)
  {
    forall i | 0 <= i < |acts| && (acts[i].Claim? || acts[i].Start? || acts[i].Prepare?)
      ensures Alone(states[i])
    {
      RunHeld(c, states, acts, i);
      StepHeld(c, states[i], acts[i]);
    }
  }

  // ---- the results ----

  /**
   Checkpoint exactness. In every hosted run without an early resume each durable
   row stands for one k: the first k pages are acknowledged, records and batches
   count exactly them, the row is exhausted or its cursor stands for page k, and
   the sink differs from its initial rows only on ids of the first k + 1 pages.
   Every row that is still active has an executor, unless its process died and
   has not recovered.
   */
  lemma CheckpointExactness(c: Config, states: seq<Engine>, acts: seq<Action>, n: nat)
    requires HostedRun(c, states, acts) && NoEarlyResume(states, acts) && n < |states|
    ensures var s := states[n]; var k := Position(c, s.job);
      && PrefixAcked(c, s.world, k)
      && s.job.records == Total(c.scan, k)
      && s.job.batches == Nonempty(c.scan, k)
      && (s.job.sourceExhausted <==> k == |c.scan.pages|)
      && (s.job.lastCheckpointAt.Some? <==> k > 0)
      && (s.job.state == Succeeded ==> k == |c.scan.pages|)
      && (forall id :: id in s.world.sink && !OldRow(c, s.world, id) ==>
            exists p: nat :: p <= k && p < |c.scan.pages| && s.world.sink[id] in c.scan.pages[p] && s.world.sink[id].id == id)
      && (Active(s.job.state) && s.ready ==> Someone(s.execs))
  {
    NoOverlap(c, states, acts);
    ExclusiveExactness(c, states, acts, n);
  }

  /**
   Bounded work. In any stretch in which nothing stops or resumes the job, no page
   is sent to the sink more often than the attempts of one execution times the
   executions the restart limit allows.
   */
  lemma BoundedSends(c: Config, states: seq<Engine>, acts: seq<Action>, first: nat, last: nat, p: nat)
    requires HostedRun(c, states, acts) && NoEarlyResume(states, acts) && Stretch(states, acts, first, last)
    ensures Sends(c, states, acts, first, last, p) <= Attempts(states[first].job) * (RestartLimit(states[first].job) + 1)
  {
    NoOverlap(c, states, acts);
    ExclusiveSends(c, states, acts, first, last, p);
  }

  /** Termination: in such a stretch executors take at most as many steps as the budget at its start. */
  lemma BoundedSteps(c: Config, states: seq<Engine>, acts: seq<Action>, first: nat, last: nat)
    requires HostedRun(c, states, acts) && NoEarlyResume(states, acts) && Stretch(states, acts, first, last)
    ensures WorkCount(acts[first..last]) <= Work(c, states[first])
  {
    NoOverlap(c, states, acts);
    ExclusiveSteps(c, states, acts, first, last);
  }

  lemma HeldArrow(c: Config, s: Engine, a: Action)
    requires Safe(c, s) && Held(s) && CancelStands(s) && Enabled(c, s, a) && a.Exec?
    ensures Follows(s.job.state, Step(c, s, a).job.state)
  {
    var pc := s.execs[a.who];
    assert Live(pc) && SafePC(c, s.world, pc);
    if Active(s.job.state) {
      ExecArrow(c, s, pc, a.answer);
    }
  }

  /** The documented state diagram, without exception. */
  lemma DiagramHolds(c: Config, states: seq<Engine>, acts: seq<Action>, k: nat)
    requires HostedRun(c, states, acts) && NoEarlyResume(states, acts) && k < |acts|
    ensures Follows(states[k].job.state, states[k + 1].job.state)
  {
    NoOverlap(c, states, acts);
    if acts[k].Exec? {
      RunSafe(c, states, acts, k);
      RunHeld(c, states, acts, k);
      RunStands(c, states, acts, k);
      HeldArrow(c, states[k], acts[k]);
    } else {
      OtherArrow(c, states[k], acts[k]);
    }
  }

  /** The row of a succeeded hosted job never changes again, and no executor works on it. */
  lemma SucceededIsFinal(c: Config, states: seq<Engine>, acts: seq<Action>, i: nat, k: nat)
    requires HostedRun(c, states, acts) && NoEarlyResume(states, acts) && i <= k < |states|
    requires states[i].job.state == Succeeded
    ensures states[k].job == states[i].job && Alone(states[k])
  {
    NoOverlap(c, states, acts);
    ExclusiveFinal(c, states, acts, i, k);
  }
}
