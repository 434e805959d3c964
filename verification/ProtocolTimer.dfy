/**
 The worker's 35-second timer against the control plane's 60-second lease, and
 the one way in which the worker can still execute without holding its lease.
 */
module ProtocolTimer {
  import opened Basics
  import opened Records
  import opened Jobs
  import opened Transfer
  import opened TransferExact
  import opened Protocol
  import opened ProtocolSafety
  import opened ProtocolProgress
  import opened ProtocolLeases

  /**
   Timing. The claim that is granted, like every request, is answered within its
   time limit; the timer is armed within five seconds of the answer; the answer of
   a report comes within the limit.
   */
  predicate Timely(s: Net, act: Act) {
    && (act.Receive? && 0 <= act.i < |s.grants| ==> s.now <= s.grants[act.i] + REQUEST)
    && (act.Arm? && s.client.Prepared? ==> s.now < s.client.at + ARMING)
    && (act.Respond? && s.client.Busy? && s.client.pending.Some? ==> s.now <= s.client.pending.value.sentAt + REQUEST)
  }

  /** A lease runs from its grant; an assignment in hand was received within the request limit of it. */
  predicate ClaimedInTime(s: Net) {
    && |s.grants| == |s.issued|
    && (forall i :: 0 <= i < |s.issued| ==> s.issued[i].leaseUntil == s.grants[i] + LEASE)
    && (s.client.Assigned? || s.client.Prepared? ==> s.client.at + LEASE <= s.client.a.leaseUntil + REQUEST)
  }

  lemma ClaimTimeKept(c: Config, s: Net, act: Act)
    requires ClaimedInTime(s) && Can(c, s, act) && Timely(s, act)
    ensures ClaimedInTime(After(c, s, act))
  {
    match act {
      case Respond(_) =>
      case Begin =>
      case _ =>
    }
  }

  /** While the timer permits execution the lease is good. */
  predicate TimerOk(s: Net) {
    s.client.Busy? ==>
      && Issued(s, s.client.a.leaseID)
      && Granted(s, s.client.a.leaseID, s.client.deadline + 1)
      && (s.client.pending.Some? ==> s.client.pending.value.report.leaseID == s.client.a.leaseID)
  }

  lemma GrantedSooner(s: Net, lease: string, until: Time, sooner: Time)
    requires Granted(s, lease, until) && sooner <= until
    ensures Granted(s, lease, sooner)
  {
  }

  lemma ArmOk(c: Config, s: Net)
    requires NetOk(c, s) && LeasesOk(s) && ClaimedInTime(s) && Can(c, s, Arm) && Timely(s, Arm)
    ensures TimerOk(After(c, s, Arm))
  {
    var a := s.client.a;
    assert a == s.issued[s.next - 1];
    GrantedSooner(s, a.leaseID, a.leaseUntil, s.now + TIMER + 1);
    var s' := After(c, s, Arm);
    assert s'.issued[s.next - 1].leaseID == a.leaseID;
    assert Ended(s, a.leaseID) ==> Ended(s', a.leaseID);
  }

  lemma RespondOk(c: Config, s: Net, act: Act)
    requires NetOk(c, s) && LeasesOk(s) && TimerOk(s) && Can(c, s, act) && act.Respond? && Timely(s, act)
    ensures TimerOk(After(c, s, act))
  {
    var s', m := After(c, s, act), s.client.pending.value;
    if s'.client.Busy? {
      assert Granted(s, m.report.leaseID, m.sentAt + LEASE);
      GrantedSooner(s, m.report.leaseID, m.sentAt + LEASE, s'.client.deadline + 1);
      assert s'.cp == s.cp && s'.accepted == s.accepted && s'.now == s.now && s'.issued == s.issued;
      assert Issued(s', s.client.a.leaseID);
      assert Ended(s, m.report.leaseID) ==> Ended(s', m.report.leaseID);
    }
  }

  lemma BusyKept(c: Config, s: Net, act: Act)
    requires LeasesOk(s) && TimerOk(s) && Can(c, s, act) && !act.Arm? && !act.Respond?
    ensures TimerOk(After(c, s, act))
  {
    var s' := After(c, s, act);
    if s'.client.Busy? {
      assert s.client.Busy? && s'.client.a == s.client.a && s'.client.deadline == s.client.deadline;
      var i :| 0 <= i < |s.issued| && s.issued[i].leaseID == s.client.a.leaseID;
      if !act.Grant? {
        IssuedSame(c, s, act);
      }
      assert s'.issued[i].leaseID == s.client.a.leaseID;
      GrantedKept(c, s, act, s.client.a.leaseID, s.client.deadline + 1);
    }
  }

  lemma StepTimer(c: Config, s: Net, act: Act)
    requires NetOk(c, s) && LeasesOk(s) && ClaimedInTime(s) && TimerOk(s) && Can(c, s, act) && Timely(s, act)
    ensures TimerOk(After(c, s, act)) && ClaimedInTime(After(c, s, act))
  {
    ClaimTimeKept(c, s, act);
    if act.Arm? {
      ArmOk(c, s);
    } else if act.Respond? {
      RespondOk(c, s, act);
    } else {
      BusyKept(c, s, act);
    }
  }

  lemma {:induction false} RunTimer(c: Config, states: seq<Net>, acts: seq<Act>, k: nat)
    requires NetRun(c, states, acts) && k < |states|
    requires forall i :: 0 <= i < |acts| ==> Timely(states[i], acts[i])
    ensures TimerOk(states[k]) && ClaimedInTime(states[k])
  {
    if k > 0 {
      RunTimer(c, states, acts, k - 1);
      RunLeases(c, states, acts, k - 1);
      NetRunOk(c, states, acts, k - 1);
      StepTimer(c, states[k - 1], acts[k - 1]);
    }
  }

  /**
   The timing bound, over any number of renewals: while the worker's timer permits
   execution, the control plane's row is still under the worker's lease, and that
   lease outlives the timer, if and only if no report under the lease has given
   the job back. In that case nobody can be granted the job.
   */
  lemma TimerWithinLease(c: Config, states: seq<Net>, acts: seq<Act>, k: nat)
    requires NetRun(c, states, acts) && k < |states|
    requires forall i :: 0 <= i < |acts| ==> Timely(states[i], acts[i])
    requires states[k].client.Busy? && states[k].now <= states[k].client.deadline
    ensures var s := states[k]; var lease := s.client.a.leaseID;
      && (LeaseLive(s, lease) <==> !Ended(s, lease))
      && (LeaseLive(s, lease) ==> s.client.deadline < s.cp.leaseUntil.value && !Claimable(s.cp, s.now))
  {
    RunTimer(c, states, acts, k);
    RunLeases(c, states, acts, k);
    NetRunOk(c, states, acts, k);
    var s := states[k];
    var lease := s.client.a.leaseID;
    assert s.client.a == s.issued[s.next - 1];
    if Ended(s, lease) {
      var m :| m in s.accepted && m.report.leaseID == lease && !Active(m.report.state);
      assert s.cp.leaseID != lease;
    }
  }

  // ---- the exception ----

  /** The period of the worker's report loop. */
  const TICKER: Time := 5000

  /**
   The report loop waits for its ticker: while the executor has not returned, the
   first report is taken no sooner than one period after the timer was armed.
   */
  predicate Ticked(s: Net, act: Act) {
    act.SendReport? && s.client.Busy? && s.client.sequence == 0 && s.client.launch != Nothing
      && !(s.client.launch == Launched && s.local.Some? && Alone(s.local.value))
    ==> s.now >= s.client.deadline - TIMER + TICKER
  }

  ghost predicate Real(states: seq<Net>, acts: seq<Act>) {
    |states| == |acts| + 1 && forall i :: 0 <= i < |acts| ==> Timely(states[i], acts[i]) && Ticked(states[i], acts[i])
  }

  ghost predicate NetReaches(c: Config, s: Net) {
    exists states, acts :: NetRun(c, states, acts) && Real(states, acts) && states[|acts|] == s
  }

  lemma NetHop(c: Config, s: Net, act: Act)
    requires NetReaches(c, s) && Can(c, s, act) && Timely(s, act) && Ticked(s, act)
    ensures NetReaches(c, After(c, s, act))
  {
    var states, acts :| NetRun(c, states, acts) && Real(states, acts) && states[|acts|] == s;
    var states', acts' := states + [After(c, s, act)], acts + [act];
    forall i | 0 <= i < |acts'|
      ensures Can(c, states'[i], acts'[i]) && After(c, states'[i], acts'[i]) == states'[i + 1]
      ensures Timely(states'[i], acts'[i]) && Ticked(states'[i], acts'[i])
    {
      if i < |acts| {
        assert Can(c, states[i], acts[i]) && Timely(states[i], acts[i]);
      }
    }
    assert NetRun(c, states', acts') && Real(states', acts');
  }

  predicate Untouched(j: Job) {
    && Hosted(j) && j.records == 0 && j.batches == 0 && j.retries == 0 && j.restarts == 0
    && j.lastCheckpointAt.None? && j.nextRunAt.None? && j.phase == NoPhase && j.state == Queued
  }

  /** The control plane's row just after a first grant of lease "L". */
  predicate Leased1(s: Net) {
    && s.cp.state == Running && s.cp.leaseID == "L" && s.cp.leaseUntil == Some(s.now + LEASE) && s.cp.reportSequence == 0
    && s.cp.records == 0 && s.cp.batches == 0 && s.cp.lastCheckpointAt.None?
    && s.sent == {} && s.accepted == {}
  }

  lemma Claimed(c: Config, s0: Net) returns (s: Net)
    requires Fresh(c, s0) && s0.client.Idle?
    ensures NetReaches(c, s) && Leased1(s) && s.local.None? && s.client.Idle? && s.next == 0
    ensures |s.issued| == 1 && s.issued[0].leaseID == "L" && s.grants == [s.now]
    ensures !s.issued[0].checkpoint && s.issued[0].records == 0 && s.issued[0].batches == 0 && !s.issued[0].cancelRequested
  {
    assert NetRun(c, [s0], []);
    NetHop(c, s0, Grant("L"));
    s := After(c, s0, Grant("L"));
  }

  /** A fresh job is granted, and the worker has the assignment. */
  lemma Received(c: Config, s0: Net) returns (s: Net)
    requires Fresh(c, s0) && s0.client.Idle?
    ensures NetReaches(c, s) && Leased1(s) && s.local.None? && s.client.Assigned?
    ensures s.client.a.leaseID == "L" && s.client.at == s.now
    ensures !s.client.a.checkpoint && s.client.a.records == 0 && s.client.a.batches == 0 && !s.client.a.cancelRequested
  {
    var s1 := Claimed(c, s0);
    NetHop(c, s1, Receive(0));
    s := After(c, s1, Receive(0));
  }

  /** Accepted locally, timer armed; the executor has not made its first update. */
  lemma Armed(c: Config, s: Net) returns (t: Net)
    requires NetReaches(c, s) && Leased1(s) && s.local.None? && s.client.Assigned?
    requires s.client.a.leaseID == "L" && s.client.at == s.now
    requires !s.client.a.checkpoint && s.client.a.records == 0 && s.client.a.batches == 0 && !s.client.a.cancelRequested
    ensures NetReaches(c, t) && Leased1(t) && t.client == Busy(s.client.a, NotYet, 0, t.now + TIMER, None)
    ensures t.local.Some? && t.local.value.ready && t.local.value.execs == [] && Untouched(t.local.value.job)
  {
    var admit := Admit("", "", "");
    NetHop(c, s, admit);
    var s1 := After(c, s, admit);
    NetHop(c, s1, Arm);
    t := After(c, s1, Arm);
  }

  /** Five seconds on, the executor still has not made its first update. */
  lemma Delayed(c: Config, s: Net) returns (t: Net)
    requires NetReaches(c, s) && s.client.Busy?
    ensures NetReaches(c, t) && t == s.(now := s.now + TICKER)
  {
    NetHop(c, s, Tick(TICKER));
    t := After(c, s, Tick(TICKER));
  }

  /** The first report is taken from the untouched row at the first tick, and the control plane accepts it. */
  lemma Dropped(c: Config, s: Net) returns (t: Net)
    requires NetReaches(c, s) && s.client.Busy? && s.client.pending.None? && s.client.sequence == 0
    requires s.client.deadline == s.now - TICKER + TIMER && Leased1(s.(now := s.now - TICKER))
    requires s.client.a.leaseID == "L" && s.local.Some? && Untouched(s.local.value.job)
    ensures NetReaches(c, t) && t.local == s.local && t.now == s.now
    ensures t.client.Busy? && t.client.launch == s.client.launch && t.client.deadline == s.client.deadline
    ensures t.cp.state == Queued && t.cp.leaseID == "" && t.cp.leaseUntil.None?
  {
    NetHop(c, s, SendReport);
    var s1 := After(c, s, SendReport);
    var m := s1.client.pending.value;
    NetHop(c, s1, Deliver(m));
    t := After(c, s1, Deliver(m));
  }

  /**
   The exception is real, for every job whose executor is five seconds late. The
   first progress report is then taken from the row before the executor's first
   update; the control plane reads "queued" and drops the lease, while the executor
   starts well inside the timer.
   */
  lemma QueuedReportDropsLease(c: Config, s0: Net) returns (s: Net)
    requires Fresh(c, s0) && s0.client.Idle?
    ensures NetReaches(c, s)
    ensures s.client.Busy? && s.now <= s.client.deadline && s.client.launch == Launched
    ensures s.local.Some? && s.local.value.job.state == Running && Someone(s.local.value.execs)
    ensures s.cp.state == Queued && s.cp.leaseID == "" && Claimable(s.cp, s.now)
  {
    var s1 := Received(c, s0);
    var s2 := Armed(c, s1);
    var s3 := Delayed(c, s2);
    var s4 := Dropped(c, s3);
    NetHop(c, s4, Begin);
    s := After(c, s4, Begin);
    assert Live(s.local.value.execs[0]);
  }
}
