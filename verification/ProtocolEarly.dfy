/**
 The sharper form of the timing bound: while an executor is at work inside its
 timer, only a report taken before that executor's first update can have given
 its job back.
 */
module ProtocolEarly {
  import opened Basics
  import opened Records
  import opened Jobs
  import opened Transfer
  import opened TransferSafety
  import opened TransferExact
  import opened TransferHosted
  import opened Protocol
  import opened ProtocolSafety
  import opened ProtocolProgress
  import opened ProtocolLeases
  import opened ProtocolTimer

  /** Nothing executes the job any more, but for an executor about to see that it was canceled. */
  predicate Quiet(e: Engine) {
    forall i :: 0 <= i < |e.execs| && Live(e.execs[i]) ==> e.execs[i] == Check && e.job.state == Canceled
  }

  /** The assignments whose execution may have begun. */
  function Seen(s: Net): int {
    if s.client.Assigned? || s.client.Prepared? then s.next - 1 else s.next
  }

  predicate FromSeen(s: Net, m: Message) {
    exists i :: 0 <= i < Seen(s) && i < |s.issued| && s.issued[i].leaseID == m.report.leaseID
  }

  /** A report of the running session, taken after the executor's first update, that gives the job back. */
  predicate GivesBack(s: Net, m: Message) {
    m.begun && s.client.Busy? && m.report.leaseID == s.client.a.leaseID && !Active(m.report.state)
  }

  predicate EarlyOk(s: Net) {
    && (s.local.Some? ==> Held(s.local.value))
    && (forall m :: m in s.sent && m.begun ==> FromSeen(s, m))
    && (s.client.Busy? ==> forall m :: m in s.sent && m.begun && m.report.leaseID == s.client.a.leaseID ==> s.client.launch == Launched)
    && (forall m :: m in s.sent && GivesBack(s, m) ==> s.local.Some? && Quiet(s.local.value))
  }

  // ---- the worker's executor ----

  lemma LocalHeldStep(c: Config, e: Engine, a: Action, stop: bool)
    requires Held(e) && Enabled(c, e, a) && (a.Exec? || a.Landing? || a == Start || a == Operate(Cancel) || a == Crash || a == Recover)
    ensures Held(Step(c, e, a)) && Held(Step(c, e, a).(stop := stop))
  {
    StepHeld(c, e, a);
  }

  lemma AdmitHeld(c: Config, s: Net, act: Act)
    requires NetOk(c, s) && EarlyOk(s) && Can(c, s, act) && act.Admit?
    ensures After(c, s, act).local.Some? ==> Held(After(c, s, act).local.value)
  {
    if s.local.Some? {
      assert Alone(s.local.value);
    }
  }

  lemma RespondHeld(c: Config, s: Net, act: Act)
    requires NetOk(c, s) && EarlyOk(s) && Can(c, s, act) && act.Respond?
    ensures After(c, s, act).local.Some? ==> Held(After(c, s, act).local.value)
  {
    if act.cancel && ActionJob(s.local.value.job, Cancel).Ok? {
      LocalHeldStep(c, s.local.value, Operate(Cancel), true);
    }
  }

  lemma ActHeld(c: Config, s: Net, act: Act)
    requires NetOk(c, s) && EarlyOk(s) && Can(c, s, act)
    ensures After(c, s, act).local.Some? ==> Held(After(c, s, act).local.value)
  {
    if act.Admit? {
      AdmitHeld(c, s, act);
    } else if act.Respond? {
      RespondHeld(c, s, act);
    } else if act.Work? {
      LocalHeldStep(c, s.local.value, act.a, true);
    } else if act.CancelLocal? {
      LocalHeldStep(c, s.local.value, Operate(Cancel), true);
    } else if act.Begin? {
      if Enabled(c, s.local.value, Start) {
        LocalHeldStep(c, s.local.value, Start, s.client.Leaving?);
      }
    } else if act.Kill? && s.local.Some? {
      LocalHeldStep(c, s.local.value, Crash, true);
    } else if act.Boot? && s.local.Some? && !s.local.value.ready {
      LocalHeldStep(c, s.local.value, Recover, true);
    }
  }

  lemma QuietWork(c: Config, e: Engine, a: Action)
    requires Quiet(e) && Enabled(c, e, a) && (a.Exec? || a.Landing? || a == Operate(Cancel))
    ensures Quiet(Step(c, e, a))
  {
    if a.Exec? {
      assert Live(e.execs[a.who]) && e.execs[a.who] == Check;
    }
  }

  // ---- reports and sessions ----

  lemma SeenGrows(c: Config, s: Net, act: Act)
    requires NetOk(c, s) && Can(c, s, act)
    ensures Seen(s) <= Seen(After(c, s, act))
  {
    match act {
      case Respond(_) =>
      case Begin =>
      case _ =>
    }
  }

  lemma FromSeenKept(c: Config, s: Net, act: Act, m: Message)
    requires NetOk(c, s) && Can(c, s, act) && FromSeen(s, m)
    ensures FromSeen(After(c, s, act), m)
  {
    SeenGrows(c, s, act);
    IssuedGrows(c, s, act);
    var i :| 0 <= i < Seen(s) && i < |s.issued| && s.issued[i].leaseID == m.report.leaseID;
    assert After(c, s, act).issued[i] == s.issued[i];
  }

  /** A new report that is marked as begun is the worker's progress report of a launched session. */
  lemma NewBegun(c: Config, s: Net, act: Act, m: Message)
    requires NetOk(c, s) && Can(c, s, act) && m in After(c, s, act).sent && m !in s.sent && m.begun
    ensures act.SendReport? && s.client.launch == Launched && m.report.leaseID == s.client.a.leaseID
    ensures m.report.state == s.local.value.job.state && After(c, s, act).local == s.local
    ensures FromSeen(After(c, s, act), m)
  {
    if !act.SendReport? && !act.Reject? && !act.Admit? {
      QuietSent(c, s, act);
    } else if act.SendReport? {
      assert s.issued[s.next - 1].leaseID == m.report.leaseID;
    }
  }

  lemma BegunKept(c: Config, s: Net, act: Act)
    requires NetOk(c, s) && EarlyOk(s) && Can(c, s, act)
    ensures var s' := After(c, s, act); forall m :: m in s'.sent && m.begun ==> FromSeen(s', m)
  {
    var s' := After(c, s, act);
    forall m | m in s'.sent && m.begun
      ensures FromSeen(s', m)
    {
      if m in s.sent {
        FromSeenKept(c, s, act, m);
      } else {
        NewBegun(c, s, act, m);
      }
    }
  }

  /** A session that goes on is the same assignment, and a launch is never taken back. */
  lemma SessionKept(c: Config, s: Net, act: Act)
    requires Can(c, s, act) && After(c, s, act).client.Busy? && !act.Arm?
    ensures s.client.Busy? && After(c, s, act).client.a == s.client.a
    ensures s.client.launch == Launched ==> After(c, s, act).client.launch == Launched && !act.Begin?
  {
    match act {
      case Respond(_) =>
      case Begin =>
      case _ =>
    }
  }

  /** A session starts without any report of its own. */
  lemma ArmFresh(c: Config, s: Net, m: Message)
    requires NetOk(c, s) && LeasesOk(s) && EarlyOk(s) && Can(c, s, Arm) && m in s.sent && m.begun
    ensures m.report.leaseID != s.client.a.leaseID
  {
    assert s.client.a == s.issued[s.next - 1];
    var i :| 0 <= i < Seen(s) && i < |s.issued| && s.issued[i].leaseID == m.report.leaseID;
  }

  lemma LaunchedKept(c: Config, s: Net, act: Act)
    requires NetOk(c, s) && LeasesOk(s) && EarlyOk(s) && Can(c, s, act) && After(c, s, act).client.Busy?
    ensures var s' := After(c, s, act);
      forall m :: m in s'.sent && m.begun && m.report.leaseID == s'.client.a.leaseID ==> s'.client.launch == Launched
  {
    var s' := After(c, s, act);
    forall m | m in s'.sent && m.begun && m.report.leaseID == s'.client.a.leaseID
      ensures s'.client.launch == Launched
    {
      if act.Arm? {
        ArmFresh(c, s, m);
      } else {
        SessionKept(c, s, act);
        if m !in s.sent {
          NewBegun(c, s, act, m);
        }
      }
    }
  }

  lemma RespondQuiet(c: Config, s: Net, act: Act)
    requires Can(c, s, act) && act.Respond? && Quiet(s.local.value)
    ensures Quiet(After(c, s, act).local.value)
  {
    if act.cancel && ActionJob(s.local.value.job, Cancel).Ok? {
      QuietWork(c, s.local.value, Operate(Cancel));
    }
  }

  /** Once given back after its first update, a session stays quiet. */
  lemma QuietKept(c: Config, s: Net, act: Act)
    requires NetOk(c, s) && EarlyOk(s) && Can(c, s, act) && After(c, s, act).client.Busy? && !act.Arm? && !act.Begin?
    requires s.local.Some? && Quiet(s.local.value)
    ensures After(c, s, act).local.Some? && Quiet(After(c, s, act).local.value)
  {
    SessionKept(c, s, act);
    if act.Work? {
      QuietWork(c, s.local.value, act.a);
    } else if act.Respond? {
      RespondQuiet(c, s, act);
    }
  }

  lemma GivenBackKept(c: Config, s: Net, act: Act, m: Message)
    requires NetOk(c, s) && LeasesOk(s) && EarlyOk(s) && Can(c, s, act)
    requires m in After(c, s, act).sent && GivesBack(After(c, s, act), m)
    ensures After(c, s, act).local.Some? && Quiet(After(c, s, act).local.value)
  {
    if act.Arm? {
      ArmFresh(c, s, m);
    } else {
      SessionKept(c, s, act);
      if m in s.sent {
        assert GivesBack(s, m) && s.client.launch == Launched;
        QuietKept(c, s, act);
      } else {
        NewBegun(c, s, act, m);
        assert Held(s.local.value);
      }
    }
  }

  lemma EarlyKept(c: Config, s: Net, act: Act)
    requires NetOk(c, s) && LeasesOk(s) && EarlyOk(s) && Can(c, s, act)
    ensures EarlyOk(After(c, s, act))
  {
    var s' := After(c, s, act);
    ActHeld(c, s, act);
    BegunKept(c, s, act);
    if s'.client.Busy? {
      LaunchedKept(c, s, act);
    }
    forall m | m in s'.sent && GivesBack(s', m)
      ensures s'.local.Some? && Quiet(s'.local.value)
    {
      GivenBackKept(c, s, act, m);
    }
  }

  lemma {:induction false} RunEarly(c: Config, states: seq<Net>, acts: seq<Act>, k: nat)
    requires NetRun(c, states, acts) && k < |states|
    ensures EarlyOk(states[k])
  {
    if k > 0 {
      RunEarly(c, states, acts, k - 1);
      RunLeases(c, states, acts, k - 1);
      NetRunOk(c, states, acts, k - 1);
      EarlyKept(c, states[k - 1], acts[k - 1]);
    }
  }

  /** The control plane took a report under this lease, taken before the executor's first update, that gave the job back. */
  predicate EndedEarly(s: Net, lease: string) {
    exists m :: m in s.accepted && m.report.leaseID == lease && !Active(m.report.state) && !m.begun
  }

  /**
   While an executor is at work and the timer permits it, the control plane's row
   is under the worker's lease, and that lease outlives the timer, if and only if
   no report that gave the job back was taken from the row before the executor's
   first update, when the row is still queued or waiting for a restart.
   */
  lemma WorkingHoldsLease(c: Config, states: seq<Net>, acts: seq<Act>, k: nat)
    requires NetRun(c, states, acts) && k < |states|
    requires forall i :: 0 <= i < |acts| ==> Timely(states[i], acts[i])
    requires states[k].client.Busy? && states[k].now <= states[k].client.deadline
    requires states[k].local.Some? && !Quiet(states[k].local.value)
    ensures var s := states[k]; var lease := s.client.a.leaseID;
      && (LeaseLive(s, lease) <==> !EndedEarly(s, lease))
      && (LeaseLive(s, lease) ==> s.client.deadline < s.cp.leaseUntil.value && !Claimable(s.cp, s.now))
  {
    var s := states[k];
    TimerWithinLease(c, states, acts, k);
    RunEarly(c, states, acts, k);
    RunLeases(c, states, acts, k);
    if Ended(s, s.client.a.leaseID) {
      var m :| m in s.accepted && m.report.leaseID == s.client.a.leaseID && !Active(m.report.state);
      assert m in s.sent && !GivesBack(s, m);
    }
  }
}
