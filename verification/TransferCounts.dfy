/**
 The bookkeeping counters of a job row, in every run and however executors
 overlap: runs counts the executions handed out, retries the backoffs taken, and
 the restart budget in use counts the restarts since the last resume.
 */
module TransferCounts {
  import opened Basics
  import opened Records
  import opened Jobs
  import opened Transfer

  predicate HandsOut(a: Action) {
    a.Claim? || a.Start?
  }

  predicate BacksOff(s: Engine, a: Action) {
    a.Exec? && a.who < |s.execs| && s.execs[a.who].Back?
  }

  predicate Restarts(s: Engine, a: Action) {
    a.Exec? && a.who < |s.execs| && s.execs[a.who].Restart? && s.job.state != CancelRequested
  }

  /** An operator resume, or an assignment of a later generation on a worker. */
  predicate Resumes(s: Engine, a: Action) {
    a == Operate(Resume) || (a.Prepare? && a.assignment.generation > s.job.generation)
  }

  function HandOuts(acts: seq<Action>, k: nat): nat
    requires k <= |acts|
  {
    if k == 0 then 0 else HandOuts(acts, k - 1) + if HandsOut(acts[k - 1]) then 1 else 0
  }

  function BackOffs(states: seq<Engine>, acts: seq<Action>, k: nat): nat
    requires k <= |acts| <= |states|
  {
    if k == 0 then 0 else BackOffs(states, acts, k - 1) + if BacksOff(states[k - 1], acts[k - 1]) then 1 else 0
  }

  function RestartsSince(states: seq<Engine>, acts: seq<Action>, k: nat): nat
    requires k <= |acts| <= |states|
  {
    if k == 0 || Resumes(states[k - 1], acts[k - 1]) then 0
    else RestartsSince(states, acts, k - 1) + if Restarts(states[k - 1], acts[k - 1]) then 1 else 0
  }

  lemma ExecCounts(c: Config, s: Engine, pc: PC, answer: Answer)
    ensures var j, j' := s.job, ExecStep(c, s, pc, answer).job;
      && j'.runs == j.runs
      && j'.retries == j.retries + (if pc.Back? then 1 else 0)
      && j'.restarts == j.restarts + (if pc.Restart? && j.state != CancelRequested then 1 else 0)
  {
    match pc {
      case Top =>
      case _ =>
    }
  }

  lemma StepCounts(c: Config, s: Engine, a: Action)
    requires Enabled(c, s, a)
    ensures var j, j' := s.job, Step(c, s, a).job;
      && j'.runs == j.runs + (if HandsOut(a) then 1 else 0)
      && j'.retries == j.retries + (if BacksOff(s, a) then 1 else 0)
      && j'.restarts == if Resumes(s, a) then 0 else j.restarts + if Restarts(s, a) then 1 else 0
  {
    if a.Exec? {
      ExecCounts(c, s, s.execs[a.who], a.answer);
    }
  }

  lemma {:induction false} CountersTellHistory(c: Config, states: seq<Engine>, acts: seq<Action>, k: nat)
    requires IsRun(c, states, acts) && Init(c, states[0]) && k < |states|
    ensures states[k].job.runs == states[0].job.runs + HandOuts(acts, k)
    ensures states[k].job.retries == states[0].job.retries + BackOffs(states, acts, k)
    ensures states[k].job.restarts == RestartsSince(states, acts, k)
  {
    if k > 0 {
      CountersTellHistory(c, states, acts, k - 1);
      StepCounts(c, states[k - 1], acts[k - 1]);
    }
  }
}
