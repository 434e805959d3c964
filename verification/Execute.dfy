/**
 Engine.execute, Engine.retry and Engine.finish as the loops they are, run in a
 process whose environment may take any steps of its own between two critical
 sections. Every execution is a run of the state machine in Transfer, so
 everything proved about runs holds of these loops.
 */
module Execute {
  import opened Basics
  import opened Records
  import opened Jobs
  import opened Transfer

  /**
   The durable row, the remote world and the position of every executor. The
   loops read st.job and st.stop only; st.execs is the record that relates them
   to the state machine.
   */
  class Host {
    const c: Config
    var st: Engine

    constructor (c: Config, st: Engine)
      ensures this.c == c && this.st == st
    {
      this.c, this.st := c, st;
    }

    /** Anything but executor me: operators, other executors, the sink, a shutdown. */
    method Others(me: nat)
      requires me < |st.execs|
      modifies this
      ensures Reaches(c, old(st), st)
      ensures me < |st.execs| && st.execs[me] == old(st.execs[me])
    {
      var acts: seq<Action> := *;
      ReachesSelf(c, st);
      var i := 0;
      while i < |acts|
        invariant i <= |acts|
        invariant Reaches(c, old(st), st)
        invariant me < |st.execs| && st.execs[me] == old(st.execs[me])
      {
        var a := acts[i];
        if Enabled(c, st, a) && !a.Crash? && !(a.Exec? && a.who == me) {
          Hop(c, old(st), st, a);
          OthersKeep(c, st, a, me);
          st := Step(c, st, a);
        }
        i := i + 1;
      }
    }

    /**
     What one critical section or connector call of me writes: a row, what became
     of the remote world, and where me goes on. It has to be what the machine does.
     */
    method Write(me: nat, row: Job, world: World, next: PC, answer: Answer)
      requires me < |st.execs| && CanAnswer(c, st, st.execs[me], answer)
      requires ExecStep(c, st, st.execs[me], answer) == Effect(row, world, next)
      modifies this
      ensures Reaches(c, old(st), st)
      ensures st == old(st).(job := row, world := world, execs := old(st.execs)[me := next])
    {
      ReachesSelf(c, st);
      Hop(c, st, st, Exec(me, answer));
      st := st.(job := row, world := world, execs := st.execs[me := next]);
    }

    /** Store.Get with the context check beside it: others have run, and nothing is written. */
    method Look(me: nat) returns (seen: Job, stopping: bool)
      requires me < |st.execs|
      modifies this
      ensures Reaches(c, old(st), st)
      ensures me < |st.execs| && st.execs[me] == old(st.execs[me]) && seen == st.job && stopping == st.stop
    {
      Others(me);
      return st.job, st.stop;
    }

    /** The branch taken on what a look has seen. */
    method Turn(me: nat, next: PC, answer: Answer)
      requires me < |st.execs| && CanAnswer(c, st, st.execs[me], answer)
      requires ExecStep(c, st, st.execs[me], answer) == Effect(st.job, st.world, next)
      modifies this
      ensures Reaches(c, old(st), st)
      ensures me < |st.execs| && st.execs[me] == next
    {
      Write(me, st.job, st.world, next, answer);
    }

    ghost predicate EndedAs(before: Engine, me: nat, target: State, message: Note)
      reads this
    {
      EndedFrom(c, before, st, me, target, message)
    }

    ghost predicate RestartsAt(before: Engine, me: nat, next: Time)
      reads this
    {
      RestartedFrom(c, before, st, me, next)
    }

    /** From a state that is reached, me wrote this row and went on there. */
    ghost predicate Wrote(before: Engine, mid: Engine, me: nat, row: Job, next: PC)
      reads this
    {
      && Reaches(c, before, mid) && me < |mid.execs| && me < |before.execs| && mid.execs[me] == before.execs[me]
      && st == mid.(job := row, execs := mid.execs[me := next])
    }

    /** Engine.finish: one update, and the executor returns. */
    method Finish(me: nat, target: State, message: Note)
      requires me < |st.execs| && st.execs[me] == PC.Finish(target, message)
      modifies this
      ensures Reaches(c, old(st), st)
      ensures me < |st.execs| && st.execs[me] == Exit
      ensures exists mid: Engine :: Wrote(old(st), mid, me, FinishedJob(mid.job, target, message), Exit)
      ensures EndedAs(old(st), me, target, message)
    {
      var current, _ := Look(me);
      ghost var mid := st;
      Write(me, FinishedJob(current, target, message), st.world, Exit, Tau(true, 0));
      ReachesTransitive(c, old(st), mid, st);
      assert Wrote(old(st), mid, me, FinishedJob(mid.job, target, message), Exit);
      assert Reaches(c, old(st), mid);
    }

    /** On the way here the job was being canceled or the process was shutting down. */
    ghost predicate Interrupted(before: Engine)
      reads this
    {
      exists mid: Engine :: Reaches(c, before, mid) && Reaches(c, mid, st) && (mid.stop || mid.job.state == CancelRequested)
    }

    /** The delay of retry: false when the context was canceled first. */
    method Delay(me: nat) returns (woke: bool)
      requires me < |st.execs| && st.execs[me].Sleep?
      modifies this
      ensures Reaches(c, old(st), st)
      ensures var pc := old(st.execs[me]);
        me < |st.execs| && st.execs[me] == if woke then Try(pc.cur, pc.op, pc.attempt + 1) else Fail(pc.cur, false)
      ensures !woke ==> Interrupted(old(st))
    {
      var _, stopping := Look(me);
      ghost var mid := st;
      var pc := st.execs[me];
      woke := *;
      if !stopping {
        woke := true;
      }
      Turn(me, if woke then Try(pc.cur, pc.op, pc.attempt + 1) else Fail(pc.cur, false), Tau(woke, 0));
      ReachesTransitive(c, old(st), mid, st);
      assert !woke ==> Reaches(c, old(st), mid) && Reaches(c, mid, st) && mid.stop;
    }

    /** A connector call: whatever a contract-abiding source or sink may answer, and what it leaves in the sink. */
    method Connector(me: nat, cur: Job, op: Op, attempt: nat) returns (answer: Answer)
      requires me < |st.execs| && st.execs[me] == Call(cur, op, attempt)
      modifies this
      ensures Reaches(c, old(st), st)
      ensures me < |st.execs| && st.execs[me] == Answered(cur, op, attempt, answer)
      ensures answer.Failure? || (if op.Reading? then answer.Got? else answer.Acked?)
    {
      var _, _ := Look(me);
      ghost var mid := st;
      answer := *;
      if !CanAnswer(c, st, st.execs[me], answer) {
        answer := Failure(true);
      }
      var world := st.world;
      if answer.Acked? {
        world := world.(acked := world.acked + {c.scan.pos(cur.cursor)}, sink := Put(world.sink, op.page.records));
      }
      Write(me, st.job, world, Answered(cur, op, attempt, answer), answer);
      ReachesTransitive(c, old(st), mid, st);
    }

    /**
     Engine.retry. On success a read returns the page and the executor stands
     after the page checks, a write stands before the checkpoint; an error is
     returned with its retryable flag. calls are the answers of its connector calls:
     a temporary failure is followed by another call while attempts are left, a
     permanent one never is, and only the last temporary failure is returned as such.
     */
    method Retry(me: nat, cur: Job, op: Op) returns (fault: Option<bool>, page: Page, ghost calls: seq<Answer>)
      requires me < |st.execs| && st.execs[me] == Try(cur, op, 1)
      modifies this
      ensures Reaches(c, old(st), st)
      ensures me < |st.execs|
      ensures st.execs[me] == Outcome(cur, op, fault, page)
      ensures Returns(cur, op, calls, fault, page, Interrupted(old(st)))
    {
      page := Page([], "", true);
      fault := None;
      calls := [];
      var attempt, again := 1, true;
      ReachesSelf(c, st);
      while again
        invariant attempt >= 1
        invariant Reaches(c, old(st), st)
        invariant me < |st.execs|
        invariant again ==> st.execs[me] == Try(cur, op, attempt)
        invariant !again ==> st.execs[me] == Outcome(cur, op, fault, page)
        invariant again ==> |calls| == attempt - 1 && (attempt == 1 || attempt <= cur.spec.maxAttempts) && AllTemporary(calls)
        invariant !again ==> Returns(cur, op, calls, fault, page, Interrupted(old(st)))
        decreases again, cur.spec.maxAttempts - attempt
      {
        ghost var s := st;
        ghost var call;
        again, fault, page, call := Attempt(me, cur, op, attempt);
        ReachesTransitive(c, old(st), s, st);
        if !again && Interrupted(s) {
          Interruption(old(st), s);
        }
        NextCall(cur, op, calls, attempt, again, fault, page, call, Interrupted(s), Interrupted(old(st)));
        calls := calls + if call.Some? then [call.value] else [];
        attempt := attempt + 1;
      }
    }

    lemma Interruption(before: Engine, s: Engine)
      requires Reaches(c, before, s) && Interrupted(s)
      ensures Interrupted(before)
    {
      var mid: Engine :| Reaches(c, s, mid) && Reaches(c, mid, st) && (mid.stop || mid.job.state == CancelRequested);
      ReachesTransitive(c, before, s, mid);
    }

    /** One pass of the loop of retry, with the answer of its connector call if it came to one. */
    method Attempt(me: nat, cur: Job, op: Op, attempt: nat)
      returns (again: bool, fault: Option<bool>, page: Page, ghost call: Option<Answer>)
      requires me < |st.execs| && st.execs[me] == Try(cur, op, attempt)
      modifies this
      ensures Reaches(c, old(st), st)
      ensures me < |st.execs|
      ensures again ==> attempt < cur.spec.maxAttempts && st.execs[me] == Try(cur, op, attempt + 1)
      ensures !again ==> st.execs[me] == Outcome(cur, op, fault, page)
      ensures Passes(cur, op, attempt, again, fault, page, call, Interrupted(old(st)))
    {
      page := Page([], "", true);
      var seen, stopping := Look(me);
      ghost var s := st;
      if stopping || seen.state == CancelRequested {
        Turn(me, Fail(cur, false), Tau(true, 0));
        ReachesTransitive(c, old(st), s, st);
        assert Reaches(c, old(st), s) && Reaches(c, s, st) && (s.stop || s.job.state == CancelRequested);
        return false, Some(false), page, None;
      }
      Turn(me, Mark(cur, op, attempt), Tau(true, 0));
      ReachesTransitive(c, old(st), s, st);
      s := st;
      var answer := Send(me, cur, op, attempt);
      ReachesTransitive(c, old(st), s, st);
      if answer.Got? {
        return false, None, answer.page, Some(answer);
      }
      if answer.Acked? {
        return false, None, page, Some(answer);
      }
      if !answer.retryable || attempt >= cur.spec.maxAttempts {
        return false, Some(answer.retryable), page, Some(answer);
      }
      s := st;
      var woke := Wait(me, cur, op, attempt);
      ReachesTransitive(c, old(st), s, st);
      if !woke {
        Interruption(old(st), s);
      }
      return woke, Some(false), page, Some(answer);
    }

    /** The phase update and the connector call. */
    method Send(me: nat, cur: Job, op: Op, attempt: nat) returns (answer: Answer)
      requires me < |st.execs| && st.execs[me] == Mark(cur, op, attempt)
      modifies this
      ensures Reaches(c, old(st), st)
      ensures me < |st.execs| && st.execs[me] == Answered(cur, op, attempt, answer)
      ensures answer.Failure? || (if op.Reading? then answer.Got? else answer.Acked?)
      ensures exists mid: Engine, s: Engine :: Reaches(c, old(st), mid) && Reaches(c, s, st) && Marks(mid.job, s.job, op)
    {
      var current, _ := Look(me);
      ghost var s := st;
      Write(me, PhasedJob(current, if op.Reading? then PhaseRead else PhaseWrite),
            SentPage(c, st.world, cur, op), Call(cur, op, attempt), Tau(true, 0));
      ReachesTransitive(c, old(st), s, st);
      ghost var t := st;
      answer := Connector(me, cur, op, attempt);
      ReachesTransitive(c, old(st), t, st);
      assert Reaches(c, old(st), s) && Reaches(c, t, st) && Marks(s.job, t.job, op);
    }

    /** The backoff update and the delay. */
    method Wait(me: nat, cur: Job, op: Op, attempt: nat) returns (woke: bool)
      requires me < |st.execs| && st.execs[me] == Back(cur, op, attempt)
      modifies this
      ensures Reaches(c, old(st), st)
      ensures me < |st.execs| && st.execs[me] == if woke then Try(cur, op, attempt + 1) else Fail(cur, false)
      ensures !woke ==> Interrupted(old(st))
      ensures exists mid: Engine, s: Engine :: Reaches(c, old(st), mid) && Reaches(c, s, st) && BacksOff(mid.job, s.job)
    {
      var current, _ := Look(me);
      ghost var s := st;
      Write(me, BackoffJob(current), st.world, Sleep(cur, op, attempt), Tau(true, 0));
      ReachesTransitive(c, old(st), s, st);
      ghost var t := st;
      woke := Delay(me);
      ReachesTransitive(c, old(st), t, st);
      if !woke {
        Interruption(old(st), t);
      }
      assert Reaches(c, old(st), s) && Reaches(c, t, st) && BacksOff(s.job, t.job);
    }

    /** The decision to start over, and when. */
    method PlanRestart(me: nat, now: Time) returns (next: Time)
      requires me < |st.execs| && st.execs[me].Fail? && st.execs[me].retryable
      requires !st.stop && st.job.state != CancelRequested && st.job.restarts < st.job.spec.maxRestarts
      modifies this
      ensures Reaches(c, old(st), st)
      ensures me < |st.execs| && st.execs[me] == Restart(next) && next == now + RestartDelay(old(st).job.restarts)
    {
      next := now + RestartDelay(st.job.restarts);
      Turn(me, Restart(next), Tau(true, now));
    }

    /** The restart update. */
    method Schedule(me: nat, next: Time, ghost before: Engine) returns (ghost mid: Engine)
      requires me < |st.execs| && st.execs[me] == Restart(next) && Reaches(c, before, st)
      modifies this
      ensures Reaches(c, before, st)
      ensures me < |st.execs| && st.execs[me] == Exit
      ensures RestartedVia(c, before, mid, st, me, next) && mid.execs[me] == old(st.execs[me])
    {
      var current, _ := Look(me);
      mid := st;
      ReachesTransitive(c, before, old(st), mid);
      Write(me, RestartedJob(current, next), st.world, Exit, Tau(true, 0));
      ReachesTransitive(c, before, mid, st);
    }

    /** The branch of a temporary failure with restarts left. */
    method StartOver(me: nat, now: Time) returns (ghost mid: Engine, next: Time)
      requires me < |st.execs| && st.execs[me].Fail? && st.execs[me].retryable
      requires !st.stop && st.job.state != CancelRequested && st.job.restarts < st.job.spec.maxRestarts
      modifies this
      ensures Reaches(c, old(st), st)
      ensures me < |st.execs| && st.execs[me] == Exit
      ensures RestartedVia(c, old(st), mid, st, me, next) && next == now + RestartDelay(old(st).job.restarts)
    {
      ghost var s := st;
      next := PlanRestart(me, now);
      mid := Schedule(me, next, s);
    }

    /** What becomes of an execution whose read, page check or write failed, on what it then saw. */
    ghost predicate GaveUp(seen: Engine, me: nat, retryable: bool, now: Time)
      reads this
    {
      if seen.stop then EndedAs(seen, me, Queued, Blank)
      else if seen.job.state == CancelRequested then EndedAs(seen, me, Canceled, Blank)
      else if retryable && seen.job.restarts < seen.job.spec.maxRestarts then
        RestartsAt(seen, me, now + RestartDelay(seen.job.restarts))
      else EndedAs(seen, me, Failed, TransferFailed)
    }

    /** The branches taken on an error, on the row and the context as they are. */
    method EndOn(me: nat, retryable: bool, now: Time)
      requires me < |st.execs| && st.execs[me].Fail? && st.execs[me].retryable == retryable
      modifies this
      ensures Reaches(c, old(st), st)
      ensures me < |st.execs| && st.execs[me] == Exit
      ensures GaveUp(old(st), me, retryable, now)
    {
      if st.stop {
        LeaveAs(me, Queued, Blank, Tau(true, now));
      } else if st.job.state == CancelRequested {
        LeaveAs(me, Canceled, Blank, Tau(true, now));
      } else if retryable && st.job.restarts < st.job.spec.maxRestarts {
        ghost var mid, _ := StartOver(me, now);
      } else {
        LeaveAs(me, Failed, TransferFailed, Tau(true, now));
      }
    }

    /** What execute does with an error of the read, the page checks or the write. */
    method GiveUp(me: nat, retryable: bool, now: Time) returns (ghost seen: Engine)
      requires me < |st.execs| && st.execs[me].Fail? && st.execs[me].retryable == retryable
      modifies this
      ensures Reaches(c, old(st), st)
      ensures me < |st.execs| && st.execs[me] == Exit
      ensures Reaches(c, old(st), seen) && GaveUp(seen, me, retryable, now)
    {
      var _, _ := Look(me);
      seen := st;
      EndOn(me, retryable, now);
      ReachesTransitive(c, old(st), seen, st);
    }

    /** A branch that ends in finish. */
    method LeaveAs(me: nat, target: State, message: Note, answer: Answer)
      requires me < |st.execs| && CanAnswer(c, st, st.execs[me], answer)
      requires ExecStep(c, st, st.execs[me], answer) == Effect(st.job, st.world, PC.Finish(target, message))
      modifies this
      ensures Reaches(c, old(st), st)
      ensures me < |st.execs| && st.execs[me] == Exit
      ensures EndedAs(old(st), me, target, message)
    {
      Turn(me, PC.Finish(target, message), answer);
      ghost var s := st;
      Finish(me, target, message);
      ReachesTransitive(c, old(st), s, st);
      EndedLater(c, old(st), s, st, me, target, message);
    }

    /** The checks between a successful read and the write, in the order of the source. */
    method CheckPage(cur: Job, page: Page) returns (good: bool)
      ensures good <==> Accepted(cur, page)
      ensures good <==>
        |page.records| <= cur.spec.batchSize && (page.done || (page.next != "" && page.next != cur.cursor)) && ValidPage(page.records, cur.spec.dimension)
    {
      if |page.records| > cur.spec.batchSize {
        return false;
      }
      if !page.done && (page.next == "" || page.next == cur.cursor) {
        return false;
      }
      var fault, _ := Validate(page.records, cur.spec.dimension);
      return fault.None?;
    }

    /** What execute does at its loop head on what it sees: it ends there, or takes on a page. */
    ghost predicate Turned(seen: Engine, me: nat, allowed: bool, over: bool)
      reads this
    {
      if seen.job.state == CancelRequested then over && EndedAs(seen, me, Canceled, Blank)
      else if seen.stop then over && EndedAs(seen, me, Queued, Blank)
      else if seen.job.sourceExhausted then over && EndedAs(seen, me, Succeeded, AlreadyAcknowledged)
      else !allowed ==> over && EndedAs(seen, me, Failed, AccessRefused)
    }

    /** One pass of the loop of execute: one page. True when the executor returned. */
    method Round(me: nat, allowed: bool) returns (over: bool)
      requires me < |st.execs| && st.execs[me] == Top
      modifies this
      ensures Reaches(c, old(st), st)
      ensures me < |st.execs| && st.execs[me] == if over then Exit else Top
      ensures exists seen: Engine :: Reaches(c, old(st), seen) && Turned(seen, me, allowed, over)
    {
      var current, stopping := Look(me);
      ghost var s := st;
      var answer := Tau(allowed, 0);
      over := true;
      if current.state == CancelRequested {
        LeaveAs(me, Canceled, Blank, answer);
      } else if stopping {
        LeaveAs(me, Queued, Blank, answer);
      } else if current.sourceExhausted {
        LeaveAs(me, Succeeded, AlreadyAcknowledged, answer);
      } else if !allowed {
        LeaveAs(me, Failed, AccessRefused, answer);
      } else {
        Turn(me, Try(current, Reading, 1), answer);
        ghost var t := st;
        over := OnePage(me, current);
        ReachesTransitive(c, s, t, st);
      }
      ReachesTransitive(c, old(st), s, st);
      assert Reaches(c, old(st), s) && Turned(s, me, allowed, over);
    }

    /** Read, check, write and checkpoint one page. */
    method OnePage(me: nat, current: Job) returns (over: bool)
      requires me < |st.execs| && st.execs[me] == Try(current, Reading, 1)
      modifies this
      ensures Reaches(c, old(st), st)
      ensures me < |st.execs| && st.execs[me] == if over then Exit else Top
    {
      var fault, page, _ := Retry(me, current, Reading);
      ghost var s := st;
      if fault.None? {
        var good := CheckPage(current, page);
        if !good {
          fault := Some(false);
        } else if page.records != [] {
          var failed, _, _ := Retry(me, current, Writing(page));
          fault := failed;
          ReachesTransitive(c, old(st), s, st);
        }
      }
      s := st;
      if fault.Some? {
        var now: Time := *;
        ghost var _ := GiveUp(me, fault.value, now);
        ReachesTransitive(c, old(st), s, st);
        return true;
      }
      over := Checkpoint(me, current, page);
      ReachesTransitive(c, old(st), s, st);
    }

    /** The checkpoint update. */
    method WriteCheckpoint(me: nat, current: Job, page: Page, now: Time)
      requires me < |st.execs| && st.execs[me] == Commit(current, page)
      modifies this
      ensures Reaches(c, old(st), st)
      ensures me < |st.execs| && st.execs[me] == if page.done then Exit else Check
      ensures exists mid: Engine :: Wrote(old(st), mid, me, CheckpointedJob(mid.job, page, now), st.execs[me])
      ensures exists mid: Engine :: Reaches(c, old(st), mid) && Checkpoints(mid, st, page, now)
    {
      var row, _ := Look(me);
      ghost var mid := st;
      var next := if page.done then Exit else Check;
      Write(me, CheckpointedJob(row, page, now), st.world, next, Tau(true, now));
      ReachesTransitive(c, old(st), mid, st);
      assert Wrote(old(st), mid, me, CheckpointedJob(mid.job, page, now), next);
      assert Reaches(c, old(st), mid) && Checkpoints(mid, st, page, now);
    }

    /** The checkpoint update and the Get after it. */
    method Checkpoint(me: nat, current: Job, page: Page) returns (over: bool)
      requires me < |st.execs| && st.execs[me] == Commit(current, page)
      modifies this
      ensures Reaches(c, old(st), st)
      ensures me < |st.execs| && st.execs[me] == if over then Exit else Top
    {
      var now: Time := *;
      WriteCheckpoint(me, current, page, now);
      if page.done {
        return true;
      }
      ghost var s := st;
      var seen, _ := Look(me);
      ghost var t := st;
      over := seen.state == Canceled;
      Turn(me, if over then Exit else Top, Tau(true, 0));
      ReachesTransitive(c, s, t, st);
      ReachesTransitive(c, old(st), s, st);
    }

    /**
     Engine.execute, for a process that lives through at most the given number of
     pages. Whatever happens around it, its effect is that of a run.
     */
    method Execute(me: nat, pages: nat) returns (over: bool)
      requires me < |st.execs| && st.execs[me] == Enter
      modifies this
      ensures Reaches(c, old(st), st)
      ensures me < |st.execs| && st.execs[me] == if over then Exit else Top
    {
      var allowed: bool := *;
      var _, _ := Look(me);
      ghost var s := st;
      if !allowed {
        LeaveAs(me, Failed, AccessRefused, Tau(false, 0));
        ReachesTransitive(c, old(st), s, st);
        return true;
      }
      Turn(me, Top, Tau(true, 0));
      ReachesTransitive(c, old(st), s, st);
      var left := pages;
      over := false;
      while left > 0 && !over
        invariant Reaches(c, old(st), st)
        invariant me < |st.execs| && st.execs[me] == if over then Exit else Top
        decreases left
      {
        s := st;
        allowed := *;
        over := Round(me, allowed);
        ReachesTransitive(c, old(st), s, st);
        left := left - 1;
      }
    }
  }

  /** Where an executor goes on from the answer of a connector call. */
  function Answered(cur: Job, op: Op, attempt: nat, answer: Answer): PC {
    match answer
    case Got(page) => AfterPage(cur, page)
    case Acked => if op.Writing? then Commit(cur, op.page) else Exit
    case Failure(retryable) => AfterError(cur, op, attempt, retryable)
    case Tau(_, _) => Exit
  }

  function AfterPage(cur: Job, page: Page): PC {
    if !Accepted(cur, page) then Fail(cur, false)
    else if page.records == [] then Commit(cur, page)
    else Try(cur, Writing(page), 1)
  }

  /** The row of an acknowledged page: its counters, its position and its end, and a pending cancel takes effect. */
  predicate Checkpoints(s: Engine, s': Engine, page: Page, now: Time) {
    s'.world == s.world && s'.job == s.job.(
      lastCheckpointAt := Some(now), phase := Checkpointed, cursor := page.next, sourceExhausted := page.done,
      records := s.job.records + |page.records|, batches := s.job.batches + if |page.records| > 0 then 1 else 0,
      state := if s.job.state == CancelRequested then Canceled else if page.done then Succeeded else s.job.state)
  }

  /** The row before a call says what is about to be done. */
  predicate Marks(j: Job, k: Job, op: Op) {
    k == j.(phase := if op.Reading? then PhaseRead else PhaseWrite)
  }

  /** The row before a delay counts the retry. */
  predicate BacksOff(j: Job, k: Job) {
    k == j.(retries := j.retries + 1, phase := Backoff)
  }

  /** The row of an ended execution: canceled if it was being canceled, else in this state with this message. */
  function Closed(j: Job, target: State, message: Note): Job {
    j.(phase := NoPhase, nextRunAt := None,
       state := if j.state == CancelRequested then Canceled else target,
       error := if j.state == CancelRequested then Blank else message)
  }

  /** The row of an execution that starts over at this time, unless it was being canceled. */
  function Reopened(j: Job, next: Time): Job {
    if j.state == CancelRequested then j.(state := Canceled)
    else j.(state := RetryWait, phase := Waiting, restarts := j.restarts + 1, nextRunAt := Some(next), error := TemporaryFailure)
  }

  /** From a state that is reached, me wrote the row of an ended execution and is gone; nothing else changed. */
  ghost predicate EndedFrom(c: Config, before: Engine, after: Engine, me: nat, target: State, message: Note) {
    exists mid: Engine :: Reaches(c, before, mid) && me < |mid.execs| &&
      after == mid.(job := Closed(mid.job, target, message), execs := mid.execs[me := Exit])
  }

  /** The same for a restart. */
  ghost predicate RestartedFrom(c: Config, before: Engine, after: Engine, me: nat, next: Time) {
    exists mid: Engine :: RestartedVia(c, before, mid, after, me, next)
  }

  ghost predicate RestartedVia(c: Config, before: Engine, mid: Engine, after: Engine, me: nat, next: Time) {
    && Reaches(c, before, mid) && me < |mid.execs|
    && after == mid.(job := Reopened(mid.job, next), execs := mid.execs[me := Exit])
  }

  lemma EndedLater(c: Config, before: Engine, s: Engine, after: Engine, me: nat, target: State, message: Note)
    requires Reaches(c, before, s) && EndedFrom(c, s, after, me, target, message)
    ensures EndedFrom(c, before, after, me, target, message)
  {
    var mid: Engine :| Reaches(c, s, mid) && me < |mid.execs| &&
      after == mid.(job := Closed(mid.job, target, message), execs := mid.execs[me := Exit]);
    ReachesTransitive(c, before, s, mid);
  }

  ghost predicate AllTemporary(calls: seq<Answer>) {
    forall i :: 0 <= i < |calls| ==> calls[i] == Failure(true)
  }

  /** What one pass of retry makes of the answer of its call; none if it was interrupted before. */
  ghost predicate Passes(cur: Job, op: Op, attempt: nat, again: bool, fault: Option<bool>, page: Page,
                         call: Option<Answer>, interrupted: bool) {
    match call
    case None => !again && fault == Some(false) && interrupted
    case Some(Failure(false)) => !again && fault == Some(false)
    case Some(Failure(true)) =>
      if attempt >= cur.spec.maxAttempts then !again && fault == Some(true)
      else again || (fault == Some(false) && interrupted)
    case Some(answer) => !again && fault == None && answer == if op.Reading? then Got(page) else Acked
  }

  /**
   How retry ends, by the answers of its calls. All but the last are temporary
   failures; a success or a permanent failure is returned at once; a temporary
   failure is returned as such only after the last attempt. Only an interruption
   ends it otherwise.
   */
  ghost predicate Returns(cur: Job, op: Op, calls: seq<Answer>, fault: Option<bool>, page: Page, interrupted: bool) {
    var most := if cur.spec.maxAttempts < 1 then 1 else cur.spec.maxAttempts;
    && |calls| <= most
    && (forall i :: 0 <= i < |calls| - 1 ==> calls[i] == Failure(true))
    && if calls == [] || (|calls| < most && calls[|calls| - 1] == Failure(true)) then fault == Some(false) && interrupted
       else
         match calls[|calls| - 1]
         case Failure(retryable) => fault == Some(retryable)
         case answer => fault == None && answer == if op.Reading? then Got(page) else Acked
  }

  lemma NextCall(cur: Job, op: Op, calls: seq<Answer>, attempt: nat, again: bool, fault: Option<bool>, page: Page,
                 call: Option<Answer>, now: bool, ever: bool)
    requires |calls| == attempt - 1 && (attempt == 1 || attempt <= cur.spec.maxAttempts) && AllTemporary(calls)
    requires Passes(cur, op, attempt, again, fault, page, call, now) && (!again && now ==> ever)
    ensures var more := calls + if call.Some? then [call.value] else [];
      if again then |more| == attempt && AllTemporary(more) else Returns(cur, op, more, fault, page, ever)
  {
  }

  /** Where retry leaves its executor. */
  function Outcome(cur: Job, op: Op, fault: Option<bool>, page: Page): PC {
    match fault
    case Some(retryable) => Fail(cur, retryable)
    case None => if op.Reading? then AfterPage(cur, page) else Commit(cur, op.page)
  }

  lemma OthersKeep(c: Config, s: Engine, a: Action, me: nat)
    requires Enabled(c, s, a) && !a.Crash? && !(a.Exec? && a.who == me) && me < |s.execs|
    ensures me < |Step(c, s, a).execs| && Step(c, s, a).execs[me] == s.execs[me]
  {
  }
}
