/**
 Hosted jobs side by side. Claim keeps a second job off a destination by looking at
 rows; what has to be kept apart is executors. This module says when the first
 gives the second, and exhibits the run in which it does not.
 */
module Destinations {
  import opened Basics
  import opened Records
  import opened Jobs
  import opened JobStore
  import opened Transfer
  import opened TransferExact
  import opened TransferHosted
  import opened TransferOverlap

  /** The hosted jobs of one process, each with its scan, its row and its executors. */
  type Fleet = map<string, Engine>

  function Rows(f: Fleet): map<string, Job> {
    map id | id in f :: f[id].job
  }

  /** A step of one job; a claim finds the destination idle. */
  predicate FleetCan(cs: map<string, Config>, f: Fleet, id: string, a: Action) {
    && id in f && id in cs && Enabled(cs[id], f[id], a) && !a.Prepare? && !a.Start?
    && (a.Claim? ==> IdleResource(Rows(f), f[id].job.sinkResource))
  }

  function FleetStep(cs: map<string, Config>, f: Fleet, id: string, a: Action): Fleet
    requires FleetCan(cs, f, id, a)
  {
    f[id := Step(cs[id], f[id], a)]
  }

  ghost predicate FleetRun(cs: map<string, Config>, fleets: seq<Fleet>, ids: seq<string>, acts: seq<Action>) {
    && |fleets| == |acts| + 1 && |ids| == |acts|
    && forall i :: 0 <= i < |acts| ==>
         FleetCan(cs, fleets[i], ids[i], acts[i]) && FleetStep(cs, fleets[i], ids[i], acts[i]) == fleets[i + 1]
  }

  /** Freshly submitted jobs. */
  ghost predicate FleetStart(cs: map<string, Config>, f: Fleet) {
    forall id :: id in f ==> id in cs && Init(cs[id], f[id])
  }

  predicate SameSink(f: Fleet, j: string, k: string) {
    j in f && k in f && j != k && f[j].job.sinkResource == f[k].job.sinkResource
  }

  /** An executor is at work: all but one that is about to see that its job was canceled. */
  predicate AtWork(e: Engine) {
    exists i :: 0 <= i < |e.execs| && Live(e.execs[i]) && !(e.execs[i] == Check && e.job.state == Canceled)
  }

  /** An executor is sending a page to the sink. */
  predicate Sending(e: Engine) {
    exists i :: 0 <= i < |e.execs| && e.execs[i].Call? && e.execs[i].op.Writing?
  }

  // ---- when it holds ----

  ghost predicate FleetOk(f: Fleet) {
    && (forall id :: id in f ==> Held(f[id]))
    && forall j, k :: SameSink(f, j, k) ==> !(Active(f[j].job.state) && Active(f[k].job.state))
  }

  lemma ExecResource(c: Config, s: Engine, pc: PC, answer: Answer)
    ensures ExecStep(c, s, pc, answer).job.sinkResource == s.job.sinkResource
  {
    match pc {
      case Top =>
      case _ =>
    }
  }

  lemma StepResource(c: Config, s: Engine, a: Action)
    requires Enabled(c, s, a)
    ensures Step(c, s, a).job.sinkResource == s.job.sinkResource
  {
    if a.Exec? {
      ExecResource(c, s, s.execs[a.who], a.answer);
    }
  }

  /** With one executor at a time, only a claim activates a row. */
  lemma OnlyClaimActivates(c: Config, s: Engine, a: Action)
    requires Held(s) && Enabled(c, s, a) && !a.Prepare? && !a.Start? && !a.Claim?
    ensures Active(Step(c, s, a).job.state) ==> Active(s.job.state)
  {
    if a.Exec? {
      assert Live(s.execs[a.who]);
    }
  }

  lemma FleetKept(cs: map<string, Config>, f: Fleet, id: string, a: Action)
    requires FleetOk(f) && FleetCan(cs, f, id, a) && (a == Operate(Resume) ==> !Looking(f[id]))
    ensures FleetOk(FleetStep(cs, f, id, a))
  {
    var f' := FleetStep(cs, f, id, a);
    StepHeld(cs[id], f[id], a);
    StepResource(cs[id], f[id], a);
    if !a.Claim? {
      OnlyClaimActivates(cs[id], f[id], a);
    }
    forall j, k | SameSink(f', j, k)
      ensures !(Active(f'[j].job.state) && Active(f'[k].job.state))
    {
      assert SameSink(f, j, k);
      if a.Claim? && (j == id || k == id) {
        var other := if j == id then k else j;
        assert Rows(f)[other].sinkResource == f[id].job.sinkResource;
      }
    }
  }

  ghost predicate NoEarlyResumes(fleets: seq<Fleet>, ids: seq<string>, acts: seq<Action>)
    requires |fleets| == |acts| + 1 && |ids| == |acts|
  {
    forall i :: 0 <= i < |acts| && acts[i] == Operate(Resume) && ids[i] in fleets[i] ==> !Looking(fleets[i][ids[i]])
  }

  lemma {:induction false} RunOk(cs: map<string, Config>, fleets: seq<Fleet>, ids: seq<string>, acts: seq<Action>, k: nat)
    requires FleetRun(cs, fleets, ids, acts) && FleetStart(cs, fleets[0]) && k < |fleets|
    requires NoEarlyResumes(fleets, ids, acts)
    ensures FleetOk(fleets[k])
  {
    if k > 0 {
      RunOk(cs, fleets, ids, acts, k - 1);
      FleetKept(cs, fleets[k - 1], ids[k - 1], acts[k - 1]);
    }
  }

  /**
   Destination exclusion of executors. In every run of any number of hosted jobs
   without an early resume, no two jobs with the same destination have executors at
   work, and so no two send at once.
   */
  lemma OneJobAtWork(cs: map<string, Config>, fleets: seq<Fleet>, ids: seq<string>, acts: seq<Action>, n: nat, j: string, k: string)
    requires FleetRun(cs, fleets, ids, acts) && FleetStart(cs, fleets[0]) && n < |fleets|
    requires NoEarlyResumes(fleets, ids, acts) && SameSink(fleets[n], j, k)
    ensures !(AtWork(fleets[n][j]) && AtWork(fleets[n][k]))
    ensures !(Sending(fleets[n][j]) && Sending(fleets[n][k]))
  {
    RunOk(cs, fleets, ids, acts, n);
    WorkIsActive(fleets[n][j]);
    WorkIsActive(fleets[n][k]);
  }

  lemma WorkIsActive(e: Engine)
    requires Held(e)
    ensures AtWork(e) ==> Active(e.job.state)
    ensures Sending(e) ==> AtWork(e)
  {
    if Sending(e) {
      var i :| 0 <= i < |e.execs| && e.execs[i].Call? && e.execs[i].op.Writing?;
      assert Live(e.execs[i]);
    }
  }

  // ---- when it does not ----

  ghost predicate FleetReaches(cs: map<string, Config>, f: Fleet, f': Fleet) {
    exists fleets, ids, acts :: FleetRun(cs, fleets, ids, acts) && fleets[0] == f && fleets[|acts|] == f'
  }

  lemma FleetHop(cs: map<string, Config>, f0: Fleet, f: Fleet, id: string, a: Action)
    requires FleetReaches(cs, f0, f) && FleetCan(cs, f, id, a)
    ensures FleetReaches(cs, f0, FleetStep(cs, f, id, a))
  {
    var fleets, ids, acts :| FleetRun(cs, fleets, ids, acts) && fleets[0] == f0 && fleets[|acts|] == f;
    var fleets', ids', acts' := fleets + [FleetStep(cs, f, id, a)], ids + [id], acts + [a];
    forall i | 0 <= i < |acts'|
      ensures FleetCan(cs, fleets'[i], ids'[i], acts'[i]) && FleetStep(cs, fleets'[i], ids'[i], acts'[i]) == fleets'[i + 1]
    {
      if i < |acts| {
        assert FleetCan(cs, fleets[i], ids[i], acts[i]);
      }
    }
    assert FleetRun(cs, fleets', ids', acts');
  }

  predicate OthersIdle(f: Fleet, id: string) {
    forall k :: k in f && k != id ==> !Active(f[k].job.state)
  }

  lemma ClaimFinds(f: Fleet, id: string, resource: string)
    requires id in f && OthersIdle(f, id) && !Active(f[id].job.state)
    ensures IdleResource(Rows(f), resource)
  {
  }

  /** A run of one job, while no other row is active, is a run of the fleet. */
  lemma {:induction false} Lift(cs: map<string, Config>, f0: Fleet, f: Fleet, id: string, states: seq<Engine>, acts: seq<Action>, k: nat)
    requires FleetReaches(cs, f0, f) && id in f && id in cs && OthersIdle(f, id)
    requires IsRun(cs[id], states, acts) && HostedActs(acts) && states[0] == f[id] && k < |states|
    ensures FleetReaches(cs, f0, f[id := states[k]])
  {
    if k == 0 {
      assert f[id := states[0]] == f;
    } else {
      Lift(cs, f0, f, id, states, acts, k - 1);
      LiftStep(cs, f0, f, id, states[k - 1], acts[k - 1]);
    }
  }

  lemma LiftStep(cs: map<string, Config>, f0: Fleet, f: Fleet, id: string, e: Engine, a: Action)
    requires id in f && id in cs && OthersIdle(f, id) && FleetReaches(cs, f0, f[id := e])
    requires Enabled(cs[id], e, a) && !a.Prepare? && !a.Start?
    ensures FleetReaches(cs, f0, f[id := Step(cs[id], e, a)])
  {
    var f1 := f[id := e];
    if a.Claim? {
      ClaimFinds(f1, id, e.job.sinkResource);
    }
    FleetHop(cs, f0, f1, id, a);
    assert f1[id := Step(cs[id], e, a)] == f[id := Step(cs[id], e, a)];
  }

  lemma LiftGets(cs: map<string, Config>, f0: Fleet, f: Fleet, id: string, e: Engine)
    requires FleetReaches(cs, f0, f) && id in f && id in cs && OthersIdle(f, id) && Gets(cs[id], f[id], e)
    ensures FleetReaches(cs, f0, f[id := e])
  {
    var states, acts :| IsRun(cs[id], states, acts) && HostedActs(acts) && states[0] == f[id] && states[|acts|] == e;
    Lift(cs, f0, f, id, states, acts, |acts|);
  }

  lemma {:induction false} RunResource(c: Config, states: seq<Engine>, acts: seq<Action>, k: nat)
    requires IsRun(c, states, acts) && k < |states|
    ensures states[k].job.sinkResource == states[0].job.sinkResource
  {
    if k > 0 {
      RunResource(c, states, acts, k - 1);
      StepResource(c, states[k - 1], acts[k - 1]);
    }
  }

  lemma GetsResource(c: Config, s: Engine, s': Engine)
    requires Gets(c, s, s')
    ensures s'.job.sinkResource == s.job.sinkResource
  {
    var states, acts :| IsRun(c, states, acts) && HostedActs(acts) && states[0] == s && states[|acts|] == s';
    RunResource(c, states, acts, |acts|);
  }

  /**
   The run that breaks it. The first job is canceled and resumed around a checkpoint,
   so that its row is queued while its executor sends a page; the second job finds
   the destination idle, is claimed, and sends beside it.
   */
  lemma TwoSenders(j: string, k: string, cs: map<string, Config>, f0: Fleet) returns (f: Fleet)
    requires j != k && f0.Keys == {j, k} && cs.Keys == {j, k} && FleetStart(cs, f0) && SameSink(f0, j, k)
    requires IsWitness(cs[j]) && Small(f0[j].job)
    requires cs[k].scan.pages == [[ROW]] && cs[k].scan.pos("") == 0 && Small(f0[k].job)
    ensures FleetReaches(cs, f0, f) && SameSink(f, j, k) && Sending(f[j]) && Sending(f[k])
  {
    assert FleetRun(cs, [f0], [], []);
    assert OthersIdle(f0, j);
    var first := InactiveSends(cs[j], f0[j]);
    LiftGets(cs, f0, f0, j, first);
    var f1 := f0[j := first];
    var second := FreshSends(cs[k], f0[k]);
    LiftGets(cs, f0, f1, k, second);
    f := f1[k := second];
    GetsResource(cs[j], f0[j], first);
    GetsResource(cs[k], f0[k], second);
    assert first.execs[0].Call? && second.execs[0].Call?;
  }

  /** Such jobs exist. */
  lemma TwoJobsExist(j: string, k: string) returns (cs: map<string, Config>, f0: Fleet)
    requires j != k
    ensures f0.Keys == {j, k} && cs.Keys == {j, k} && FleetStart(cs, f0) && SameSink(f0, j, k)
    ensures IsWitness(cs[j]) && Small(f0[j].job)
    ensures cs[k].scan.pages == [[ROW]] && cs[k].scan.pos("") == 0 && Small(f0[k].job)
  {
    var c, s := WitnessExists();
    var d := Config(Scan([[ROW]], cursor => 0), map[]);
    cs, f0 := map[j := c, k := d], map[j := s, k := s.(world := World({}, {}, map[], map[]))];
    assert ValidScan(d.scan);
  }
}
