/**
 Leases in time: fencing of reports, expiry, and the worker's timer against the
 control plane's clock.
 */
module ProtocolLeases {
  import opened Basics
  import opened Records
  import opened Jobs
  import opened Transfer
  import opened TransferExact
  import opened Protocol
  import opened ProtocolSafety
  import opened ProtocolProgress

  predicate Issued(s: Net, lease: string) {
    exists i :: 0 <= i < |s.issued| && s.issued[i].leaseID == lease
  }

  /** The control plane took a report under this lease that gave the job back. */
  predicate Ended(s: Net, lease: string) {
    exists m :: m in s.accepted && m.report.leaseID == lease && !Active(m.report.state)
  }

  /** The lease is good until then: nobody else gets the job before, unless it was given back. */
  predicate Granted(s: Net, lease: string, until: Time) {
    && (s.cp.leaseID == lease ==> s.cp.leaseUntil.Some? && s.cp.leaseUntil.value >= until)
    && (s.now < until ==> s.cp.leaseID == lease || Ended(s, lease))
  }

  predicate LeaseLive(s: Net, lease: string) {
    s.cp.leaseID == lease && Leased(s.cp, s.now)
  }

  /** A row has a lease exactly while it is active, and it is the latest one. */
  predicate RowShape(s: Net) {
    && (Active(s.cp.state) <==> s.cp.leaseID != "")
    && (s.cp.leaseUntil.Some? <==> s.cp.leaseID != "")
    && (s.cp.leaseID != "" ==> |s.issued| > 0 && s.cp.leaseID == s.issued[|s.issued| - 1].leaseID)
    && (s.cp.leaseUntil.Some? ==> s.cp.leaseUntil.value <= s.now + LEASE)
    && !Hosted(s.cp)
  }

  predicate IssuedShape(s: Net) {
    && (forall i :: 0 <= i < |s.issued| ==> s.issued[i].leaseID != "")
    && (forall i, j :: 0 <= i < j < |s.issued| ==> s.issued[i].leaseID != s.issued[j].leaseID)
  }

  predicate AcceptedShape(s: Net) {
    && (forall m :: m in s.sent ==> m.sentAt <= s.now)
    && (forall m :: m in s.accepted ==> m in s.sent && Issued(s, m.report.leaseID))
    && (forall m :: m in s.accepted && m.report.leaseID == s.cp.leaseID ==>
          m.report.sequence <= s.cp.reportSequence && Active(m.report.state))
  }

  predicate GrantsOk(s: Net) {
    && (forall i :: 0 <= i < |s.issued| ==> Granted(s, s.issued[i].leaseID, s.issued[i].leaseUntil))
    && (forall m :: m in s.accepted && Active(m.report.state) ==> Granted(s, m.report.leaseID, m.sentAt + LEASE))
  }

  predicate LeasesOk(s: Net) {
    RowShape(s) && IssuedShape(s) && AcceptedShape(s) && GrantsOk(s)
  }

  lemma FreshLeases(c: Config, s: Net)
    requires Fresh(c, s)
    ensures LeasesOk(s)
  {
  }

  lemma RowShapeKept(c: Config, s: Net, act: Act)
    requires RowShape(s) && Can(c, s, act)
    ensures RowShape(After(c, s, act))
  {
    if !CpAct(act) {
      RowGrows(c, s, act);
      IssuedSame(c, s, act);
    }
  }

  lemma IssuedSame(c: Config, s: Net, act: Act)
    requires Can(c, s, act) && !act.Grant?
    ensures After(c, s, act).issued == s.issued
    ensures s.now <= After(c, s, act).now
    ensures !act.Tick? ==> After(c, s, act).now == s.now
  {
  }

  lemma AcceptedSame(c: Config, s: Net, act: Act)
    requires Can(c, s, act) && !act.Deliver?
    ensures After(c, s, act).accepted == s.accepted
    ensures s.sent <= After(c, s, act).sent
    ensures forall m :: m in After(c, s, act).sent && m !in s.sent ==> m.sentAt == s.now
  {
  }

  lemma DeliveredAccepted(c: Config, s: Net, act: Act)
    requires LeasesOk(s) && Can(c, s, act) && act.Deliver?
    ensures AcceptedShape(After(c, s, act))
  {
    var s' := After(c, s, act);
    assert s'.sent == s.sent && s'.issued == s.issued && s'.now == s.now;
    forall m | m in s'.accepted
      ensures m in s'.sent && Issued(s', m.report.leaseID)
    {
      assert Issued(s, m.report.leaseID);
    }
  }

  lemma QuietAccepted(c: Config, s: Net, act: Act)
    requires LeasesOk(s) && Can(c, s, act) && !act.Deliver?
    ensures var s' := After(c, s, act);
      && (forall m :: m in s'.sent ==> m.sentAt <= s'.now)
      && forall m :: m in s'.accepted ==> m in s'.sent && Issued(s', m.report.leaseID)
  {
    var s' := After(c, s, act);
    AcceptedSame(c, s, act);
    if !act.Grant? { IssuedSame(c, s, act); }
    forall m | m in s'.accepted
      ensures Issued(s', m.report.leaseID)
    {
      var i :| 0 <= i < |s.issued| && s.issued[i].leaseID == m.report.leaseID;
      assert s'.issued[i] == s.issued[i];
    }
  }

  lemma AcceptedKept(c: Config, s: Net, act: Act)
    requires LeasesOk(s) && Can(c, s, act)
    ensures AcceptedShape(After(c, s, act))
  {
    if act.Deliver? {
      DeliveredAccepted(c, s, act);
    } else {
      QuietAccepted(c, s, act);
      AcceptedSame(c, s, act);
      RowGrows(c, s, act);
    }
  }

  /** A good lease stays good: renewals only extend it, and only a report under it ends it. */
  lemma GrantedKept(c: Config, s: Net, act: Act, lease: string, until: Time)
    requires RowShape(s) && Can(c, s, act) && lease != "" && Issued(s, lease) && Granted(s, lease, until)
    ensures Granted(After(c, s, act), lease, until)
  {
    var s' := After(c, s, act);
    RowGrows(c, s, act);
    match act {
      case Deliver(m) => DeliverGranted(c, s, act, lease, until);
      case Grant(_) => AcceptedSame(c, s, act);
      case Operator(op) => AcceptedSame(c, s, act);
      case PolicyFail => AcceptedSame(c, s, act);
      case _ =>
        AcceptedSame(c, s, act);
        IssuedSame(c, s, act);
    }
  }

  lemma DeliverGranted(c: Config, s: Net, act: Act, lease: string, until: Time)
    requires RowShape(s) && Can(c, s, act) && act.Deliver? && lease != "" && Granted(s, lease, until)
    ensures Granted(After(c, s, act), lease, until)
  {
    var s' := After(c, s, act);
    if Ended(s, lease) {
      var m :| m in s.accepted && m.report.leaseID == lease && !Active(m.report.state);
      assert m in s'.accepted;
    }
    if s.cp.leaseID == lease && s'.cp.leaseID != lease {
      assert act.m in s'.accepted && act.m.report.leaseID == lease && !Active(act.m.report.state);
    }
  }

  lemma GrantsKept(c: Config, s: Net, act: Act)
    requires LeasesOk(s) && Can(c, s, act)
    ensures GrantsOk(After(c, s, act))
  {
    var s' := After(c, s, act);
    forall i | 0 <= i < |s'.issued|
      ensures Granted(s', s'.issued[i].leaseID, s'.issued[i].leaseUntil)
    {
      if i < |s.issued| {
        assert s'.issued[i] == s.issued[i] by {
          if !act.Grant? { IssuedSame(c, s, act); }
        }
        assert Issued(s, s.issued[i].leaseID);
        GrantedKept(c, s, act, s.issued[i].leaseID, s.issued[i].leaseUntil);
      } else {
        if !act.Grant? { IssuedSame(c, s, act); }
      }
    }
    forall m | m in s'.accepted && Active(m.report.state)
      ensures Granted(s', m.report.leaseID, m.sentAt + LEASE)
    {
      if m in s.accepted {
        GrantedKept(c, s, act, m.report.leaseID, m.sentAt + LEASE);
      } else {
        if !act.Deliver? { AcceptedSame(c, s, act); }
        assert act == Deliver(m);
      }
    }
  }

  lemma LeasesKept(c: Config, s: Net, act: Act)
    requires LeasesOk(s) && Can(c, s, act)
    ensures LeasesOk(After(c, s, act))
  {
    RowShapeKept(c, s, act);
    AcceptedKept(c, s, act);
    GrantsKept(c, s, act);
    if !act.Grant? {
      IssuedSame(c, s, act);
    }
  }

  lemma {:induction false} RunLeases(c: Config, states: seq<Net>, acts: seq<Act>, k: nat)
    requires NetRun(c, states, acts) && k < |states|
    ensures LeasesOk(states[k])
  {
    if k == 0 {
      FreshLeases(c, states[0]);
    } else {
      RunLeases(c, states, acts, k - 1);
      LeasesKept(c, states[k - 1], acts[k - 1]);
    }
  }

  /**
   Fencing: the control plane takes a report only under the lease of its latest
   grant, only while that lease lives, and only with a sequence number above all
   it has taken under it. So each report is taken at most once, however often the
   channel repeats it, and none after a newer grant.
   */
  lemma FencedReports(c: Config, states: seq<Net>, acts: seq<Act>, k: nat)
    requires NetRun(c, states, acts) && k < |acts| && acts[k].Deliver?
    ensures var s, r := states[k], acts[k].m.report;
      && |s.issued| > 0 && r.leaseID == s.issued[|s.issued| - 1].leaseID && LeaseLive(s, r.leaseID)
      && (forall m :: m in s.accepted && m.report.leaseID == r.leaseID ==> m.report.sequence < r.sequence)
      && acts[k].m !in s.accepted
  {
    RunLeases(c, states, acts, k);
  }

  /** A row holds a lease exactly while it is running or being canceled. */
  lemma LeaseIffActive(c: Config, states: seq<Net>, acts: seq<Act>, k: nat)
    requires NetRun(c, states, acts) && k < |states|
    ensures Active(states[k].cp.state) <==> states[k].cp.leaseID != ""
    ensures Active(states[k].cp.state) <==> states[k].cp.leaseUntil.Some?
  {
    RunLeases(c, states, acts, k);
  }

  /** A lease that has run out, or was given back, never comes back. */
  lemma {:induction false} ExpiredStaysExpired(c: Config, states: seq<Net>, acts: seq<Act>, i: nat, k: nat, lease: string)
    requires NetRun(c, states, acts) && i <= k < |states|
    requires Issued(states[i], lease) && !LeaseLive(states[i], lease)
    ensures Issued(states[k], lease) && !LeaseLive(states[k], lease)
    decreases k
  {
    if i < k {
      ExpiredStaysExpired(c, states, acts, i, k - 1, lease);
      var s, act := states[k - 1], acts[k - 1];
      RunLeases(c, states, acts, k - 1);
      RowGrows(c, s, act);
      var n :| 0 <= n < |s.issued| && s.issued[n].leaseID == lease;
      if !act.Grant? {
        IssuedSame(c, s, act);
      }
      assert After(c, s, act).issued[n].leaseID == lease;
    }
  }
}
