/**
 The job state diagram of docs/architecture.md against the code: which changes of
 the durable state follow it.
 */
module TransferStates {
  import opened Basics
  import opened Records
  import opened Jobs
  import opened Transfer
  import opened TransferSafety
  import opened TransferExact

  /** An arrow of the diagram, or the requeue of an interrupted job that the text below it names. */
  predicate Arrow(a: State, b: State) {
    match a
    case Queued => b == Running || b == Canceled
    case Running => b == Succeeded || b == Failed || b == RetryWait || b == CancelRequested || b == Queued
    case RetryWait => b == Running || b == Queued || b == Canceled
    case CancelRequested => b == Canceled
    case Failed => b == Queued
    case Canceled => b == Queued
    case Succeeded => false
  }

  /** An executor that saw a cancel request will find it again. */
  predicate CancelStands(s: Engine) {
    forall i :: 0 <= i < |s.execs| && s.execs[i].Finish? && s.execs[i].target == Canceled ==> s.job.state == CancelRequested
  }

  /** A step by an executor of a job that is neither running nor being canceled. */
  predicate Stale(s: Engine, a: Action) {
    a.Exec? && a.who < |s.execs| && !Active(s.job.state)
  }

  lemma ExecArrow(c: Config, s: Engine, pc: PC, answer: Answer)
    requires SafePC(c, s.world, pc) && CanAnswer(c, s, pc, answer) && Active(s.job.state)
    requires pc.Finish? && pc.target == Canceled ==> s.job.state == CancelRequested
    ensures var state := ExecStep(c, s, pc, answer).job.state; state == s.job.state || Arrow(s.job.state, state)
  {
    match pc {
      case Top =>
      case _ =>
    }
  }

  lemma ExecStands(c: Config, s: Engine, pc: PC, answer: Answer)
    requires Live(pc) && CanAnswer(c, s, pc, answer)
    ensures var e := ExecStep(c, s, pc, answer);
      e.pc.Finish? && e.pc.target == Canceled ==> e.job.state == CancelRequested
  {
    match pc {
      case Top =>
      case _ =>
    }
  }

  lemma OtherArrow(c: Config, s: Engine, a: Action)
    requires Enabled(c, s, a) && !a.Exec? && !a.Prepare?
    ensures Step(c, s, a).job.state == s.job.state || Arrow(s.job.state, Step(c, s, a).job.state)
  {
  }

  lemma OtherStands(c: Config, s: Engine, a: Action)
    requires Sole(c, s) && CancelStands(s) && Enabled(c, s, a) && !a.Exec? && !a.Prepare?
    requires a.Claim? || a.Start? ==> Alone(s)
    ensures CancelStands(Step(c, s, a))
  {
    var s' := Step(c, s, a);
    forall i | 0 <= i < |s'.execs| && s'.execs[i].Finish? && s'.execs[i].target == Canceled
      ensures s'.job.state == CancelRequested
    {
      assert i < |s.execs| && s'.execs[i] == s.execs[i];
      assert Live(s.execs[i]);
    }
  }

  lemma StepStands(c: Config, s: Engine, a: Action)
    requires Sole(c, s) && CancelStands(s) && Enabled(c, s, a) && !a.Prepare?
    requires a.Claim? || a.Start? ==> Alone(s)
    ensures CancelStands(Step(c, s, a))
  {
    if a.Exec? {
      assert Live(s.execs[a.who]);
      ExecStands(c, s, s.execs[a.who], a.answer);
      assert forall i :: 0 <= i < |s.execs| && i != a.who ==> !Live(s.execs[i]);
    } else {
      OtherStands(c, s, a);
    }
  }

  lemma {:induction false} RunStands(c: Config, states: seq<Engine>, acts: seq<Action>, k: nat)
    requires IsRun(c, states, acts) && Init(c, states[0]) && Exclusive(states, acts) && k < |states|
    requires forall i :: 0 <= i < |acts| ==> !acts[i].Prepare?
    ensures CancelStands(states[k])
  {
    if k > 0 {
      RunStands(c, states, acts, k - 1);
      RunSole(c, states, acts, k - 1);
      StepStands(c, states[k - 1], acts[k - 1]);
    }
  }

  /** A row with an executor is active, or was canceled around it and perhaps queued again. */
  predicate Attended(s: Engine) {
    forall i :: 0 <= i < |s.execs| && Live(s.execs[i]) ==> Active(s.job.state) || s.job.state == Queued || s.job.state == Canceled
  }

  lemma ExecAttended(c: Config, s: Engine, pc: PC, answer: Answer)
    requires SafePC(c, s.world, pc) && Live(pc) && CanAnswer(c, s, pc, answer)
    requires Active(s.job.state) || s.job.state == Queued || s.job.state == Canceled
    ensures var e := ExecStep(c, s, pc, answer);
      Live(e.pc) ==> Active(e.job.state) || e.job.state == Queued || e.job.state == Canceled
  {
    match pc {
      case Top =>
      case _ =>
    }
  }

  lemma StepAttended(c: Config, s: Engine, a: Action)
    requires Safe(c, s) && Sole(c, s) && Attended(s) && Enabled(c, s, a) && !a.Prepare?
    requires a.Claim? || a.Start? ==> Alone(s)
    ensures Attended(Step(c, s, a))
  {
    if a.Exec? {
      assert SafePC(c, s.world, s.execs[a.who]) && Live(s.execs[a.who]);
      ExecAttended(c, s, s.execs[a.who], a.answer);
      assert forall i :: 0 <= i < |s.execs| && i != a.who ==> !Live(s.execs[i]);
    }
  }

  lemma {:induction false} RunAttended(c: Config, states: seq<Engine>, acts: seq<Action>, k: nat)
    requires IsRun(c, states, acts) && Init(c, states[0]) && Exclusive(states, acts) && k < |states|
    requires forall i :: 0 <= i < |acts| ==> !acts[i].Prepare?
    ensures Attended(states[k])
  {
    if k > 0 {
      RunAttended(c, states, acts, k - 1);
      RunSole(c, states, acts, k - 1);
      StepAttended(c, states[k - 1], acts[k - 1]);
    }
  }

  /** Updates that end an execution other than by a shutdown or a cancel. */
  predicate Ends(pc: PC) {
    pc.Restart? || (pc.Commit? && pc.page.done) || (pc.Finish? && (pc.target == Failed || pc.target == Succeeded))
  }

  predicate Follows(a: State, b: State) {
    a == b || Arrow(a, b)
  }

  /** A row that was canceled around its executor: the diagram is left by ending the execution, and only then. */
  lemma StaleArrowIff(c: Config, s: Engine, pc: PC, answer: Answer)
    requires SafePC(c, s.world, pc) && CanAnswer(c, s, pc, answer)
    requires s.job.state == Queued || s.job.state == Canceled
    requires pc.Finish? ==> pc.target != Canceled
    ensures Follows(s.job.state, ExecStep(c, s, pc, answer).job.state) <==> !Ends(pc)
  {
    match pc {
      case Top =>
      case _ =>
    }
  }

  /**
   In every hosted run with one executor at a time, a step follows the diagram if
   and only if it does not end the execution of a job that is neither running
   nor being canceled.
   */
  lemma DiagramIff(c: Config, states: seq<Engine>, acts: seq<Action>, k: nat)
    requires IsRun(c, states, acts) && Init(c, states[0]) && Exclusive(states, acts) && k < |acts|
    requires forall i :: 0 <= i < |acts| ==> !acts[i].Prepare?
    ensures Follows(states[k].job.state, states[k + 1].job.state)
      <==> !(Stale(states[k], acts[k]) && Ends(states[k].execs[acts[k].who]))
  {
    var s, act := states[k], acts[k];
    if act.Exec? {
      var pc := s.execs[act.who];
      RunStands(c, states, acts, k);
      RunSole(c, states, acts, k);
      RunAttended(c, states, acts, k);
      assert SafePC(c, s.world, pc) && Live(pc);
      if Active(s.job.state) {
        ExecArrow(c, s, pc, act.answer);
      } else {
        StaleArrowIff(c, s, pc, act.answer);
      }
    } else {
      OtherArrow(c, s, act);
    }
  }

  // ---- succeeded is final ----

  predicate DoneAlone(s: Engine) {
    s.job.state == Succeeded ==> Alone(s)
  }

  lemma ExecSucceeds(c: Config, s: Engine, pc: PC, answer: Answer)
    requires Live(pc) && CanAnswer(c, s, pc, answer) && s.job.state != Succeeded
    ensures var e := ExecStep(c, s, pc, answer); e.job.state == Succeeded ==> !Live(e.pc)
  {
    match pc {
      case Top =>
      case _ =>
    }
  }

  lemma StepDoneAlone(c: Config, s: Engine, a: Action)
    requires Sole(c, s) && DoneAlone(s) && Enabled(c, s, a) && !a.Prepare?
    ensures DoneAlone(Step(c, s, a))
    ensures s.job.state == Succeeded ==> Step(c, s, a).job == s.job
  {
    if a.Exec? {
      assert Live(s.execs[a.who]);
      ExecSucceeds(c, s, s.execs[a.who], a.answer);
      assert forall i :: 0 <= i < |s.execs| && i != a.who ==> !Live(s.execs[i]);
    }
  }

  lemma NextDoneAlone(c: Config, states: seq<Engine>, acts: seq<Action>, k: nat)
    requires IsRun(c, states, acts) && k < |acts| && !acts[k].Prepare?
    requires Sole(c, states[k]) && DoneAlone(states[k])
    ensures DoneAlone(states[k + 1])
    ensures states[k].job.state == Succeeded ==> states[k + 1].job == states[k].job
  {
    StepDoneAlone(c, states[k], acts[k]);
  }

  lemma {:induction false} RunDoneAlone(c: Config, states: seq<Engine>, acts: seq<Action>, k: nat)
    requires IsRun(c, states, acts) && Init(c, states[0]) && Exclusive(states, acts) && k < |states|
    requires forall i :: 0 <= i < |acts| ==> !acts[i].Prepare?
    ensures Sole(c, states[k]) && DoneAlone(states[k])
  {
    RunSole(c, states, acts, k);
    if k > 0 {
      RunDoneAlone(c, states, acts, k - 1);
      NextDoneAlone(c, states, acts, k - 1);
    }
  }

  lemma {:induction false} SameAlong(states: seq<Engine>, i: nat, k: nat)
    requires i <= k < |states| && states[i].job.state == Succeeded
    requires forall n :: i <= n < k && states[n].job.state == Succeeded ==> states[n + 1].job == states[n].job
    ensures states[k].job == states[i].job
    decreases k
  {
    if i < k {
      SameAlong(states, i, k - 1);
      assert states[k - 1 + 1].job == states[k - 1].job;
    }
  }

  /** With one executor at a time the row of a succeeded job never changes again, and no executor works on it. */
  lemma ExclusiveFinal(c: Config, states: seq<Engine>, acts: seq<Action>, i: nat, k: nat)
    requires IsRun(c, states, acts) && Init(c, states[0]) && Exclusive(states, acts) && i <= k < |states|
    requires forall n :: 0 <= n < |acts| ==> !acts[n].Prepare?
    requires states[i].job.state == Succeeded
    ensures states[k].job == states[i].job && Alone(states[k])
  {
    forall n | i <= n < k && states[n].job.state == Succeeded
      ensures states[n + 1].job == states[n].job
    {
      RunDoneAlone(c, states, acts, n);
      NextDoneAlone(c, states, acts, n);
    }
    SameAlong(states, i, k);
    RunDoneAlone(c, states, acts, k);
  }
}
