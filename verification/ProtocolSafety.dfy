/**
 What every run of the lease protocol keeps, across both stores: the control
 plane never claims more progress than the worker has durably made, a succeeded
 row means a complete destination, and a worker that kept its data and its
 configuration is never told that its checkpoint is missing.
 */
module ProtocolSafety {
  import opened Basics
  import opened Records
  import opened Jobs
  import opened Transfer
  import opened TransferSafety
  import opened TransferExact
  import opened Protocol

  // ---- the worker's side ----

  predicate Holds(client: Client) {
    client.Assigned? || client.Prepared? || client.Busy? || client.Leaving?
  }

  /** No executor can be running in these states of the client. */
  predicate Resting(client: Client) {
    !((client.Busy? || client.Leaving?) && client.launch == Launched)
  }

  ghost predicate LocalOk(c: Config, s: Net) {
    && ValidScan(c.scan)
    && match s.local
       case None => s.client.Down? || s.client.Idle? || s.client.Assigned?
       case Some(e) =>
         && Safe(c, e) && Sole(c, e) && Complete(e)
         && (e.ready <==> !s.client.Down?)
         && (Resting(s.client) ==> Alone(e))
  }

  function LocalRecords(s: Net): int {
    if s.local.Some? then s.local.value.job.records else 0
  }

  function LocalBatches(s: Net): int {
    if s.local.Some? then s.local.value.job.batches else 0
  }

  predicate LocalCheckpoint(s: Net) {
    s.local.Some? && s.local.value.job.lastCheckpointAt.Some?
  }

  /** The worker's sink has acknowledged every page. */
  ghost predicate Finished(c: Config, s: Net) {
    s.local.Some? && PrefixAcked(c, s.local.value.world, |c.scan.pages|)
  }

  /** Progress on the worker is never taken back. */
  ghost predicate Advances(c: Config, s: Net, s': Net) {
    && LocalRecords(s) <= LocalRecords(s') && LocalBatches(s) <= LocalBatches(s')
    && (LocalCheckpoint(s) ==> LocalCheckpoint(s'))
    && (Finished(c, s) ==> Finished(c, s'))
  }

  /** Progress of one step of the worker's engine. */
  lemma EngineProgress(c: Config, e: Engine, a: Action)
    requires Safe(c, e) && Sole(c, e) && Enabled(c, e, a)
    ensures var j, j' := e.job, Step(c, e, a).job;
      j.records <= j'.records && j.batches <= j'.batches && (j.lastCheckpointAt.Some? ==> j'.lastCheckpointAt.Some?)
  {
    if a.Exec? {
      ExecJobExact(c, e, a.who, a.answer);
      TotalMonotone(c.scan, Position(c, e.job), Position(c, Step(c, e, a).job));
    } else {
      OtherProgress(c, e, a);
    }
  }

  /** One step of the worker's engine keeps the engine's invariants and its progress. */
  lemma EngineStep(c: Config, e: Engine, a: Action)
    requires Safe(c, e) && Sole(c, e) && Complete(e) && Enabled(c, e, a)
    requires a.Claim? || a.Start? || a.Prepare? ==> Alone(e)
    ensures var e' := Step(c, e, a);
      && Safe(c, e') && Sole(c, e') && Complete(e')
      && e.job.records <= e'.job.records && e.job.batches <= e'.job.batches
      && (e.job.lastCheckpointAt.Some? ==> e'.job.lastCheckpointAt.Some?)
      && (PrefixAcked(c, e.world, |c.scan.pages|) ==> PrefixAcked(c, e'.world, |c.scan.pages|))
  {
    StepSafe(c, e, a);
    StepComplete(c, e, a);
    EngineProgress(c, e, a);
    if a.Exec? {
      ExecSole(c, e, a.who, a.answer);
    } else {
      OtherSole(c, e, a);
    }
    if PrefixAcked(c, e.world, |c.scan.pages|) {
      PrefixGrows(c, e.world, Step(c, e, a).world, |c.scan.pages|);
    }
  }

  lemma AdmittedOk(c: Config, a: Assignment, sourceFP: string, sinkFP: string, resource: string, now: Time)
    requires ValidScan(c.scan) && AdmittedJob(a, sourceFP, sinkFP, resource, now).Ok?
    ensures var e := AdmittedEngine(c, AdmittedJob(a, sourceFP, sinkFP, resource, now).value);
      Safe(c, e) && Sole(c, e) && Complete(e) && e.job.records == 0 && e.job.batches == 0
  {
    var e := AdmittedEngine(c, AdmittedJob(a, sourceFP, sinkFP, resource, now).value);
    InitSafe(c, e);
    InitSole(c, e);
  }

  /** The engine part of the worker is in order. */
  ghost predicate EngineOk(c: Config, e: Engine) {
    Safe(c, e) && Sole(c, e) && Complete(e)
  }

  lemma StoppedOk(c: Config, e: Engine, stop: bool)
    requires EngineOk(c, e)
    ensures EngineOk(c, e.(stop := stop))
  {
  }

  /** From one worker state to the next, told by what happens to its engine. */
  ghost predicate EngineAdvances(c: Config, e: Engine, e': Engine) {
    && EngineOk(c, e')
    && e.job.records <= e'.job.records && e.job.batches <= e'.job.batches
    && (e.job.lastCheckpointAt.Some? ==> e'.job.lastCheckpointAt.Some?)
    && (PrefixAcked(c, e.world, |c.scan.pages|) ==> PrefixAcked(c, e'.world, |c.scan.pages|))
  }

  lemma LocalMoves(c: Config, s: Net, s': Net)
    requires LocalOk(c, s) && s.local.Some? && s'.local.Some?
    requires EngineAdvances(c, s.local.value, s'.local.value)
    requires s'.local.value.ready <==> !s'.client.Down?
    requires Resting(s'.client) ==> Alone(s'.local.value)
    ensures LocalOk(c, s') && Advances(c, s, s')
  {
  }

  lemma LocalAdmit(c: Config, s: Net, act: Act)
    requires LocalOk(c, s) && Can(c, s, act) && act.Admit?
    ensures LocalOk(c, After(c, s, act)) && Advances(c, s, After(c, s, act))
  {
    var a, s' := s.client.a, After(c, s, act);
    if !Refused(s, a, act.sourceFP, act.sinkFP, act.resource) {
      if s.local.None? {
        AdmittedOk(c, a, act.sourceFP, act.sinkFP, act.resource, s.now);
      } else {
        EngineStep(c, s.local.value, Prepare(a, act.sourceFP, act.sinkFP));
        LocalMoves(c, s, s');
      }
    }
  }

  lemma LocalBegin(c: Config, s: Net, act: Act)
    requires LocalOk(c, s) && Can(c, s, act) && act.Begin?
    ensures LocalOk(c, After(c, s, act)) && Advances(c, s, After(c, s, act))
  {
    var e := s.local.value;
    if Enabled(c, e, Start) {
      EngineStep(c, e, Start);
      StoppedOk(c, Step(c, e, Start), s.client.Leaving?);
    }
    LocalMoves(c, s, After(c, s, act));
  }

  lemma LocalWork(c: Config, s: Net, act: Act)
    requires LocalOk(c, s) && Can(c, s, act) && act.Work?
    ensures LocalOk(c, After(c, s, act)) && Advances(c, s, After(c, s, act))
  {
    var e := s.local.value;
    EngineStep(c, e, act.a);
    if act.a.Exec? {
      assert Live(e.execs[act.a.who]);
    }
    LocalMoves(c, s, After(c, s, act));
  }

  lemma LocalCancel(c: Config, s: Net)
    requires LocalOk(c, s) && s.local.Some? && ActionJob(s.local.value.job, Cancel).Ok?
    ensures var t := Local(s, Step(c, s.local.value, Operate(Cancel))); LocalOk(c, t) && Advances(c, s, t)
  {
    EngineStep(c, s.local.value, Operate(Cancel));
    LocalMoves(c, s, Local(s, Step(c, s.local.value, Operate(Cancel))));
  }

  lemma LocalStopping(c: Config, s: Net)
    requires LocalOk(c, s) && !s.client.Down? && !s.client.Leaving?
    ensures LocalOk(c, Stopping(s)) && Advances(c, s, Stopping(s))
  {
    if s.local.Some? {
      StoppedOk(c, s.local.value, true);
      LocalMoves(c, s, Stopping(s));
    }
  }

  lemma SameEngine(c: Config, s: Net, s': Net)
    requires LocalOk(c, s) && s.local.Some? && s'.local == s.local
    requires s.client.Busy? && s'.client.Busy? && s'.client.launch == s.client.launch
    ensures LocalOk(c, s') && Advances(c, s, s')
  {
  }

  lemma LocalRespond(c: Config, s: Net, act: Act)
    requires LocalOk(c, s) && Can(c, s, act) && act.Respond?
    ensures LocalOk(c, After(c, s, act)) && Advances(c, s, After(c, s, act))
  {
    var s' := After(c, s, act);
    if s' == Stopping(s) {
      LocalStopping(c, s);
    } else if act.cancel {
      var t := Local(s, Step(c, s.local.value, Operate(Cancel)));
      LocalCancel(c, s);
      if s' == Stopping(t) {
        LocalStopping(c, t);
      } else {
        SameEngine(c, t, s');
      }
    } else {
      SameEngine(c, s, s');
    }
  }

  lemma LocalDies(c: Config, s: Net, act: Act)
    requires LocalOk(c, s) && Can(c, s, act) && (act.Kill? || act.Boot?)
    ensures LocalOk(c, After(c, s, act)) && Advances(c, s, After(c, s, act))
  {
    if s.local.Some? {
      EngineStep(c, s.local.value, if act.Kill? then Crash else Recover);
      LocalMoves(c, s, After(c, s, act));
    }
  }

  /** Steps that reach into the worker's engine. */
  predicate EngineAct(act: Act) {
    act.Admit? || act.CancelLocal? || act.Begin? || act.Work? || act.Respond?
  }

  lemma LocalEngine(c: Config, s: Net, act: Act)
    requires LocalOk(c, s) && Can(c, s, act) && EngineAct(act)
    ensures LocalOk(c, After(c, s, act)) && Advances(c, s, After(c, s, act))
  {
    if act.Admit? {
      LocalAdmit(c, s, act);
    } else if act.CancelLocal? {
      LocalCancel(c, s);
    } else if act.Begin? {
      LocalBegin(c, s, act);
    } else if act.Work? {
      LocalWork(c, s, act);
    } else {
      LocalRespond(c, s, act);
    }
  }

  lemma LocalKept(c: Config, s: Net, act: Act)
    requires LocalOk(c, s) && Can(c, s, act)
    ensures LocalOk(c, After(c, s, act)) && Advances(c, s, After(c, s, act))
  {
    if EngineAct(act) {
      LocalEngine(c, s, act);
    } else if act.Quit? {
      LocalStopping(c, s);
    } else if act.Kill? || act.Boot? {
      LocalDies(c, s, act);
    } else {
      LocalIdle(c, s, act);
    }
  }

  lemma LocalIdle(c: Config, s: Net, act: Act)
    requires LocalOk(c, s) && Can(c, s, act)
    requires !act.Admit? && !act.CancelLocal? && !act.Begin? && !act.Work? && !act.Respond? && !act.Quit? && !act.Kill? && !act.Boot?
    ensures LocalOk(c, After(c, s, act)) && Advances(c, s, After(c, s, act))
  {
    var s' := After(c, s, act);
    assert s'.local == s.local;
    assert s'.client.Down? <==> s.client.Down?;
    assert Resting(s'.client) ==> Resting(s.client) || act.Join?;
  }
}
