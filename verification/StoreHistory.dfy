/**
 The job store against ControlTable: every call of a store is a move of the table,
 or leaves it alone, and so is every crash and reopening. Whatever every allowed
 move keeps therefore holds of every store, whatever is called.
 */
module StoreHistory {
  import opened Basics
  import opened Jobs
  import opened Journal
  import opened JobStore
  import opened ControlTable

  /** A property of the table that every allowed move keeps. */
  ghost predicate Kept(p: Control -> bool) {
    forall s, m {:trigger Next(s, m)} :: p(s) && Allowed(s, m) ==> p(Next(s, m))
  }

  /** Row j may be written under its id. */
  predicate Writes(p: Control -> bool, jobs: map<string, Job>, now: Time, j: Job) {
    p(Control(jobs[j.id := j], now))
  }

  lemma MoveWrites(p: Control -> bool, jobs: map<string, Job>, now: Time, m: Move)
    requires Kept(p) && p(Control(jobs, now)) && Allowed(Control(jobs, now), m) && !m.Tick?
    requires NewRow(Control(jobs, now), m).id == m.id
    ensures Writes(p, jobs, now, NewRow(Control(jobs, now), m))
  {
    assert p(Next(Control(jobs, now), m));
  }

  lemma Passes(p: Control -> bool, jobs: map<string, Job>, now: Time, d: nat)
    requires Kept(p) && p(Control(jobs, now))
    ensures p(Control(jobs, now + d))
  {
    assert Allowed(Control(jobs, now), Tick(d));
    assert p(Next(Control(jobs, now), Tick(d)));
  }

  /** The row of a call, if it has one, is one that a move writes. */
  predicate RowWrites(p: Control -> bool, jobs: map<string, Job>, now: Time, row: Option<Job>) {
    row.Some? ==> Writes(p, jobs, now, row.value)
  }

  predicate Keyed(jobs: map<string, Job>) {
    forall id :: id in jobs ==> jobs[id].id == id
  }

  // ---- one lemma per method ----

  lemma CreateMove(p: Control -> bool, jobs: map<string, Job>, now: Time, j: Job)
    requires Kept(p) && p(Control(jobs, now)) && j.id !in jobs
    requires j == NewJob(j.id, j.spec, j.owner, now, j.idempotencyKey, j.sourceFP, j.sinkFP, j.sinkResource)
    ensures RowWrites(p, jobs, now, CreateRow(jobs, j))
  {
    if CreateRow(jobs, j).Some? {
      MoveWrites(p, jobs, now, Submit(j.id, j));
    }
  }

  lemma ClaimMove(p: Control -> bool, jobs: map<string, Job>, now: Time, row: Option<Job>)
    requires Kept(p) && p(Control(jobs, now)) && Keyed(jobs) && ClaimRow(jobs, now, row)
    ensures RowWrites(p, jobs, now, row)
  {
    if row.Some? {
      MoveWrites(p, jobs, now, Move.Claim(row.value.id));
    }
  }

  lemma ActionMove(p: Control -> bool, jobs: map<string, Job>, now: Time, id: string, op: Operator)
    requires Kept(p) && p(Control(jobs, now)) && Keyed(jobs)
    ensures RowWrites(p, jobs, now, ActionRow(jobs, id, op))
  {
    if ActionRow(jobs, id, op).Some? {
      MoveWrites(p, jobs, now, Operate(id, op));
    }
  }

  lemma ExecuteMove(p: Control -> bool, jobs: map<string, Job>, now: Time, id: string, change: Change)
    requires Kept(p) && p(Control(jobs, now)) && Keyed(jobs) && Allowed(Control(jobs, now), Move.Execute(id, change))
    ensures Writes(p, jobs, now, Changed(jobs[id], change))
  {
    MoveWrites(p, jobs, now, Move.Execute(id, change));
  }

  lemma RecoverMove(p: Control -> bool, jobs: map<string, Job>, now: Time, j: Job)
    requires Kept(p) && p(Control(jobs, now)) && Keyed(jobs) && RecoveryOf(jobs, j)
    ensures Writes(p, jobs, now, j)
  {
    MoveWrites(p, jobs, now, RecoverRow(j.id));
  }

  lemma AssignMove(p: Control -> bool, jobs: map<string, Job>, now: Time, w: Worker, approved: bool, lease: string, row: Option<Job>)
    requires Kept(p) && p(Control(jobs, now)) && Keyed(jobs) && w.id != "" && lease != ""
    requires AssignRow(jobs, w, approved, lease, now, row)
    ensures RowWrites(p, jobs, now, row)
  {
    if row.Some? {
      var id := row.value.id;
      MoveWrites(p, jobs, now, if approved then Lease(w, id, lease) else Drop(w, id));
    }
  }

  lemma ReportMove(p: Control -> bool, jobs: map<string, Job>, now: Time, w: Worker, id: string, r: Report)
    requires Kept(p) && p(Control(jobs, now)) && Keyed(jobs) && w.id != ""
    ensures RowWrites(p, jobs, now, ReportRow(jobs, w, id, r, now))
  {
    if ReportRow(jobs, w, id, r, now).Some? {
      MoveWrites(p, jobs, now, Take(w, id, r));
    }
  }

  lemma PutBack<K, V>(m: map<K, V>, k: K, v: V)
    requires k in m
    ensures m[k := v][k := m[k]] == m
  {
  }

  lemma UnrecoverOne(before: map<string, Job>, now: map<string, Job>, rest: set<string>, id: string)
    requires RecoveredExcept(before, now, rest) && id in before && id !in rest
    ensures RecoveredExcept(before, now[id := before[id]], rest + {id})
  {
  }

  lemma RecoverRowReached(p: Control -> bool, earlier: map<string, Job>, time: Time, id: string)
    requires Kept(p) && p(Control(earlier, time)) && id in earlier && Keyed(earlier)
    ensures p(Control(earlier[id := RecoveredRow(earlier[id])], time))
  {
    if Interrupted(earlier[id]) {
      RecoverMove(p, earlier, time, RecoveredJob(earlier[id]));
    } else {
      assert earlier == earlier[id := earlier[id]];
    }
  }

  lemma RecoveredKeyed(before: map<string, Job>, now: map<string, Job>, rest: set<string>)
    requires RecoveredExcept(before, now, rest) && Keyed(before)
    ensures Keyed(now)
  {
  }

  lemma NothingRecovered(before: map<string, Job>, now: map<string, Job>, rest: set<string>)
    requires RecoveredExcept(before, now, rest) && before.Keys - rest == {}
    ensures now == before
  {
    assert forall id :: id in before ==> id in before.Keys - rest || id in rest;
  }

  /** The loop of Recover, row by row and in any order. */
  lemma {:induction false} RecoveredReached(p: Control -> bool, before: map<string, Job>, now: map<string, Job>, rest: set<string>, time: Time)
    requires Kept(p) && p(Control(before, time)) && RecoveredExcept(before, now, rest) && Keyed(before)
    ensures p(Control(now, time))
    decreases before.Keys - rest
  {
    if before.Keys - rest == {} {
      NothingRecovered(before, now, rest);
    } else {
      var id :| id in before.Keys - rest;
      var earlier := now[id := before[id]];
      UnrecoverOne(before, now, rest, id);
      RecoveredKeyed(before, earlier, rest + {id});
      RecoveredReached(p, before, earlier, rest + {id}, time);
      RecoverRowReached(p, earlier, time, id);
      PutBack(now, id, before[id]);
    }
  }

  // ---- a store at work ----

  datatype Call =
    | Wait(d: nat)
    | Create(id: string, spec: Spec, sourceFP: string, sinkFP: string, resource: string, key: string, owner: Option<Owner>)
    | Claim
    | Act(id: string, op: Operator)
    | Execute(id: string, change: Change)
    | Recover(ios: nat -> IO)
    | ClaimWorker(w: Worker, approved: bool, lease: string)
    | Report(w: Worker, id: string, r: Report)
    | Reopen

  /** Ids are drawn afresh, lease ids and worker ids are not empty, and an executor updates a job it was handed. */
  predicate Proper(jobs: map<string, Job>, now: Time, call: Call) {
    match call
    case Create(id, _, _, _, _, _, _) => id !in jobs
    case Execute(id, change) => Allowed(Control(jobs, now), Move.Execute(id, change))
    case ClaimWorker(w, _, lease) => w.id != "" && lease != ""
    case Report(w, _, _) => w.id != ""
    case _ => true
  }

  /** p holds of the table in memory, and of the one with the row whose line may or may not be on disk. */
  ghost predicate Track(p: Control -> bool, jobs: map<string, Job>, poison: bool, attempt: Option<Job>, now: Time) {
    p(Control(jobs, now)) && (poison ==> attempt.Some? && Writes(p, jobs, now, attempt.value))
  }

  ghost predicate Tracked(p: Control -> bool, s: Store, now: Time)
    reads s
  {
    s.Valid() && Track(p, s.jobs, s.poison, s.attempt, now)
  }

  lemma Settle(p: Control -> bool, before: map<string, Job>, after: map<string, Job>, poison: bool, poison': bool,
               attempt: Option<Job>, attempt': Option<Job>, row: Option<Job>, now: Time)
    requires Track(p, before, poison, attempt, now) && Outcome(before, after, poison, poison', attempt, attempt', row)
    requires RowWrites(p, before, now, row)
    ensures Track(p, after, poison', attempt', now)
  {
  }

  method DoCreate(ghost p: Control -> bool, s: Store, call: Call, now: Time, io: IO)
    requires Kept(p) && Tracked(p, s, now) && call.Create? && Proper(s.jobs, now, call)
    modifies s
    ensures Tracked(p, s, now)
  {
    ghost var jobs, poison, attempt := s.jobs, s.poison, s.attempt;
    ghost var row := NewJob(call.id, call.spec, call.owner, now, call.key, call.sourceFP, call.sinkFP, call.resource);
    CreateMove(p, jobs, now, row);
    var r, created := s.Create(call.id, call.spec, call.sourceFP, call.sinkFP, call.resource, call.key, call.owner, now, io);
    Settle(p, jobs, s.jobs, poison, s.poison, attempt, s.attempt, CreateRow(jobs, row), now);
  }

  method DoClaim(ghost p: Control -> bool, s: Store, now: Time, io: IO)
    requires Kept(p) && Tracked(p, s, now)
    modifies s
    ensures Tracked(p, s, now)
  {
    ghost var jobs, poison, attempt := s.jobs, s.poison, s.attempt;
    var picked, failed := s.Claim(now, io);
    ghost var row :| ClaimRow(jobs, now, row) && Outcome(jobs, s.jobs, poison, s.poison, attempt, s.attempt, row);
    ClaimMove(p, jobs, now, row);
    Settle(p, jobs, s.jobs, poison, s.poison, attempt, s.attempt, row, now);
  }

  method DoAct(ghost p: Control -> bool, s: Store, id: string, op: Operator, now: Time, io: IO)
    requires Kept(p) && Tracked(p, s, now)
    modifies s
    ensures Tracked(p, s, now)
  {
    ghost var jobs, poison, attempt := s.jobs, s.poison, s.attempt;
    ActionMove(p, jobs, now, id, op);
    var r := s.Action(id, op, io);
    Settle(p, jobs, s.jobs, poison, s.poison, attempt, s.attempt, ActionRow(jobs, id, op), now);
  }

  method DoExecute(ghost p: Control -> bool, s: Store, id: string, change: Change, kind: string, digest: string, now: Time, io: IO)
    requires Kept(p) && Tracked(p, s, now) && Allowed(Control(s.jobs, now), Move.Execute(id, change))
    modifies s
    ensures Tracked(p, s, now)
  {
    ghost var jobs, poison, attempt := s.jobs, s.poison, s.attempt;
    ExecuteMove(p, jobs, now, id, change);
    var r := s.Update(id, kind, digest, j => Ok(Changed(j, change)), io);
    Settle(p, jobs, s.jobs, poison, s.poison, attempt, s.attempt, Some(Changed(jobs[id], change)), now);
  }

  method DoRecover(ghost p: Control -> bool, s: Store, ios: nat -> IO, now: Time)
    requires Kept(p) && Tracked(p, s, now)
    modifies s
    ensures Tracked(p, s, now)
  {
    ghost var jobs, poison, attempt := s.jobs, s.poison, s.attempt;
    var failed := s.Recover(ios);
    if !poison {
      ghost var rest: set<string> :| RecoveredExcept(jobs, s.jobs, rest);
      RecoveredReached(p, jobs, s.jobs, rest, now);
      if s.poison {
        RecoverMove(p, s.jobs, now, s.attempt.value);
      }
    }
  }

  method DoClaimWorker(ghost p: Control -> bool, s: Store, w: Worker, approved: bool, lease: string, now: Time, io: IO)
    requires Kept(p) && Tracked(p, s, now) && w.id != "" && lease != ""
    modifies s
    ensures Tracked(p, s, now)
  {
    ghost var jobs, poison, attempt := s.jobs, s.poison, s.attempt;
    var a, failed := s.ClaimWorker(w, approved, lease, now, io);
    ghost var row :| AssignRow(jobs, w, approved, lease, now, row) && Outcome(jobs, s.jobs, poison, s.poison, attempt, s.attempt, row);
    AssignMove(p, jobs, now, w, approved, lease, row);
    Settle(p, jobs, s.jobs, poison, s.poison, attempt, s.attempt, row, now);
  }

  method DoReport(ghost p: Control -> bool, s: Store, w: Worker, id: string, r: Report, now: Time, io: IO)
    requires Kept(p) && Tracked(p, s, now) && w.id != ""
    modifies s
    ensures Tracked(p, s, now)
  {
    ghost var jobs, poison, attempt := s.jobs, s.poison, s.attempt;
    ReportMove(p, jobs, now, w, id, r);
    var result := s.ReportWorker(w, id, r, now, io);
    Settle(p, jobs, s.jobs, poison, s.poison, attempt, s.attempt, ReportRow(jobs, w, id, r, now), now);
  }

  method DoReopen(ghost p: Control -> bool, s: Store, now: Time) returns (t: Store)
    requires Kept(p) && Tracked(p, s, now)
    ensures fresh(t) && Tracked(p, t, now) && !t.poison
  {
    t := JobStore.Reopen(s);
  }

  /**
   A control plane from an empty journal on: any calls in any order, any write
   failures, any crashes and reopenings. What holds of the empty table and is kept
   by every allowed move of ControlTable holds of its table all the time.
   */
  method Serve(ghost p: Control -> bool, codec: Codec, calls: seq<(Call, IO)>) returns (s: Store, now: Time)
    requires GoodCodec(codec) && Kept(p) && p(Control(map[], 0))
    ensures s.Valid() && p(Control(s.jobs, now))
  {
    s := new Store(codec, "");
    var ok := s.Load();
    now := 0;
    var i := 0;
    while i < |calls|
      invariant i <= |calls| && fresh(s) && Tracked(p, s, now)
    {
      s, now := Perform(p, s, calls[i].0, now, calls[i].1);
      i := i + 1;
    }
  }

  method Perform(ghost p: Control -> bool, s: Store, call: Call, now: Time, io: IO) returns (t: Store, later: Time)
    requires Kept(p) && Tracked(p, s, now)
    modifies s
    ensures (t == s || fresh(t)) && Tracked(p, t, later)
  {
    t, later := s, now;
    if !Proper(s.jobs, now, call) {
      return;
    }
    match call {
      case Wait(d) =>
        Passes(p, s.jobs, now, d);
        if s.poison {
          Passes(p, s.jobs[s.attempt.value.id := s.attempt.value], now, d);
        }
        later := now + d;
      case Create(_, _, _, _, _, _, _) => DoCreate(p, s, call, now, io);
      case Claim => DoClaim(p, s, now, io);
      case Act(id, op) => DoAct(p, s, id, op, now, io);
      case Execute(id, change) => DoExecute(p, s, id, change, "", "", now, io);
      case Recover(ios) => DoRecover(p, s, ios, now);
      case ClaimWorker(w, approved, lease) => DoClaimWorker(p, s, w, approved, lease, now, io);
      case Report(w, id, r) => DoReport(p, s, w, id, r, now, io);
      case Reopen => t := DoReopen(p, s, now);
    }
  }

  /** The invariants of ControlTable, for every store. */
  method ServeSound(codec: Codec, calls: seq<(Call, IO)>) returns (s: Store, now: Time)
    requires GoodCodec(codec)
    ensures s.Valid() && Sound(Control(s.jobs, now))
  {
    ghost var p := (c: Control) => Sound(c);
    forall c: Control, m | p(c) && Allowed(c, m)
      ensures p(Next(c, m))
    {
      SoundKept(c, m);
    }
    s, now := Serve(p, codec, calls);
  }
}
