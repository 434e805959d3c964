/**
 What holds in every run of the engine, however executors overlap: the durable
 cursor never passes a page the sink has not acknowledged, a succeeded job is
 completely acknowledged, and the sink holds source rows only where it may.
 */
module TransferSafety {
  import opened Basics
  import opened Records
  import opened Jobs
  import opened Transfer

  ghost predicate SafeJob(c: Config, j: Job, w: World) {
    && (!j.sourceExhausted ==> c.scan.pos(j.cursor) < |c.scan.pages|)
    && PrefixAcked(c, w, Position(c, j))
    && (j.state == Succeeded ==> PrefixAcked(c, w, |c.scan.pages|))
  }

  ghost predicate SafeCur(c: Config, w: World, cur: Job) {
    && !cur.sourceExhausted
    && c.scan.pos(cur.cursor) < |c.scan.pages|
    && PrefixAcked(c, w, c.scan.pos(cur.cursor))
  }

  ghost predicate SafeOp(c: Config, cur: Job, op: Op) {
    op.Writing? ==> ContractPage(c.scan, cur.cursor, op.page) && op.page.records != []
  }

  ghost predicate SafePC(c: Config, w: World, pc: PC) {
    match pc
    case Try(cur, op, _) => SafeCur(c, w, cur) && SafeOp(c, cur, op)
    case Mark(cur, op, _) => SafeCur(c, w, cur) && SafeOp(c, cur, op)
    case Call(cur, op, _) =>
      SafeCur(c, w, cur) && SafeOp(c, cur, op) && (op.Writing? ==> c.scan.pos(cur.cursor) in w.tried)
    case Back(cur, op, _) => SafeCur(c, w, cur) && SafeOp(c, cur, op)
    case Sleep(cur, op, _) => SafeCur(c, w, cur) && SafeOp(c, cur, op)
    case Commit(cur, page) =>
      && SafeCur(c, w, cur) && ContractPage(c.scan, cur.cursor, page)
      && (c.scan.pos(cur.cursor) in w.acked || page.records == [])
    case Finish(target, _) =>
      && !Active(target) && target != RetryWait
      && (target == Succeeded ==> PrefixAcked(c, w, |c.scan.pages|))
    case _ => true
  }

  /** Pages sent so far come after an acknowledged prefix; acknowledged rows are in the sink; nothing else changed. */
  ghost predicate SafeSink(c: Config, w: World) {
    && (forall p :: p in w.acked ==> p in w.tried)
    && (forall p :: p in w.tried ==> p < |c.scan.pages| && PrefixAcked(c, w, p))
    && (forall p, r | p in w.acked && r in c.scan.pages[p] :: r.id in w.sink && w.sink[r.id] == r)
    && (forall id :: id in c.initial ==> id in w.sink)
    && (forall id :: id in w.sink ==> OldRow(c, w, id) || SentRow(c, w, id))
  }

  ghost predicate OldRow(c: Config, w: World, id: string)
    requires id in w.sink
  {
    id in c.initial && w.sink[id] == c.initial[id]
  }

  ghost predicate SentRow(c: Config, w: World, id: string)
    requires id in w.sink
  {
    exists p :: p in w.tried && p < |c.scan.pages| && w.sink[id] in c.scan.pages[p] && w.sink[id].id == id
  }

  ghost predicate Safe(c: Config, s: Engine) {
    && ValidScan(c.scan)
    && SafeJob(c, s.job, s.world)
    && SafeSink(c, s.world)
    && forall i :: 0 <= i < |s.execs| ==> SafePC(c, s.world, s.execs[i])
  }

  /** The world only ever learns more. */
  ghost predicate Grows(w: World, w': World) {
    w.acked <= w'.acked && w.tried <= w'.tried
  }

  lemma PrefixGrows(c: Config, w: World, w': World, k: nat)
    requires PrefixAcked(c, w, k) && Grows(w, w')
    ensures PrefixAcked(c, w', k)
  {
  }

  lemma PCGrows(c: Config, w: World, w': World, pc: PC)
    requires SafePC(c, w, pc) && Grows(w, w')
    ensures SafePC(c, w', pc)
  {
  }

  lemma {:induction false} PutKeeps(sink: map<string, Record>, rs: seq<Record>, id: string)
    ensures id in sink ==> id in Put(sink, rs)
    ensures id in Put(sink, rs) ==>
      (id in sink && Put(sink, rs)[id] == sink[id]) || (Put(sink, rs)[id] in rs && Put(sink, rs)[id].id == id)
    ensures (exists r :: r in rs && r.id == id) ==>
      id in Put(sink, rs) && Put(sink, rs)[id] in rs && Put(sink, rs)[id].id == id
  {
    if rs != [] {
      PutKeeps(sink, rs[..|rs| - 1], id);
      assert rs == rs[..|rs| - 1] + [rs[|rs| - 1]];
    }
  }

  /** Writing rows of one already-sent page keeps the sink safe. */
  lemma PutSafe(c: Config, w: World, p: nat, part: seq<Record>)
    requires ValidScan(c.scan) && SafeSink(c, w)
    requires p in w.tried && forall r :: r in part ==> r in c.scan.pages[p]
    ensures SafeSink(c, w.(sink := Put(w.sink, part)))
  {
    var w' := w.(sink := Put(w.sink, part));
    forall q, r | q in w.acked && r in c.scan.pages[q]
      ensures r.id in w'.sink && w'.sink[r.id] == r
    {
      PutKeeps(w.sink, part, r.id);
    }
    forall id | id in w'.sink
      ensures OldRow(c, w', id) || SentRow(c, w', id)
    {
      PutKeeps(w.sink, part, id);
      if w'.sink[id] in part && w'.sink[id].id == id {
        assert SentRow(c, w', id);
      } else {
        assert OldRow(c, w, id) || SentRow(c, w, id);
      }
    }
    forall id | id in c.initial
      ensures id in w'.sink
    {
      PutKeeps(w.sink, part, id);
    }
    assert forall q :: q in w.tried ==> PrefixAcked(c, w, q) ==> PrefixAcked(c, w', q);
  }

  /** The acknowledgement of a whole page keeps the sink safe. */
  lemma AckSafe(c: Config, w: World, p: nat, rs: seq<Record>)
    requires ValidScan(c.scan) && SafeSink(c, w)
    requires p in w.tried && rs == c.scan.pages[p]
    ensures SafeSink(c, w.(acked := w.acked + {p}, sink := Put(w.sink, rs)))
  {
    PutSafe(c, w, p, rs);
    var w1 := w.(sink := Put(w.sink, rs));
    var w' := w1.(acked := w1.acked + {p});
    forall r | r in c.scan.pages[p]
      ensures r.id in w'.sink && w'.sink[r.id] == r
    {
      PutKeeps(w.sink, rs, r.id);
    }
    forall q | q in w'.tried
      ensures q < |c.scan.pages| && PrefixAcked(c, w', q)
    {
      PrefixGrows(c, w1, w', q);
    }
    forall id | id in w'.sink
      ensures OldRow(c, w', id) || SentRow(c, w', id)
    {
      assert OldRow(c, w1, id) || SentRow(c, w1, id);
    }
  }

  lemma TriedSafe(c: Config, w: World, cur: Job, op: Op)
    requires SafeSink(c, w) && SafeCur(c, w, cur) && op.Writing?
    ensures SafeSink(c, SentPage(c, w, cur, op)) && Grows(w, SentPage(c, w, cur, op))
  {
    var w', p := SentPage(c, w, cur, op), c.scan.pos(cur.cursor);
    forall q | q in w'.tried
      ensures q < |c.scan.pages| && PrefixAcked(c, w', q)
    {
      PrefixGrows(c, w, w', if q in w.tried then q else p);
    }
    forall id | id in w'.sink
      ensures OldRow(c, w', id) || SentRow(c, w', id)
    {
      assert OldRow(c, w, id) || SentRow(c, w, id);
    }
  }

  /** Only sending and acknowledging a page touch the world. */
  lemma QuietWorld(c: Config, s: Engine, pc: PC, answer: Answer)
    requires !(pc.Mark? && pc.op.Writing?) && !(pc.Call? && answer.Acked?)
    ensures ExecStep(c, s, pc, answer).world == s.world
  {
    match pc {
      case Top =>
      case _ =>
    }
  }

  lemma SentWorldSafe(c: Config, s: Engine, cur: Job, op: Op, attempt: nat, answer: Answer)
    requires ValidScan(c.scan) && SafeSink(c, s.world) && SafePC(c, s.world, Mark(cur, op, attempt)) && op.Writing?
    ensures var e := ExecStep(c, s, Mark(cur, op, attempt), answer); Grows(s.world, e.world) && SafeSink(c, e.world)
  {
    TriedSafe(c, s.world, cur, op);
    assert ExecStep(c, s, Mark(cur, op, attempt), answer).world == SentPage(c, s.world, cur, op);
  }

  lemma AckedWorldSafe(c: Config, s: Engine, cur: Job, op: Op, attempt: nat)
    requires ValidScan(c.scan) && SafeSink(c, s.world) && SafePC(c, s.world, Call(cur, op, attempt)) && op.Writing?
    ensures var e := ExecStep(c, s, Call(cur, op, attempt), Acked); Grows(s.world, e.world) && SafeSink(c, e.world)
  {
    AckSafe(c, s.world, c.scan.pos(cur.cursor), op.page.records);
  }

  /** The world after one executor step. */
  lemma ExecWorldSafe(c: Config, s: Engine, who: nat, answer: Answer)
    requires Safe(c, s) && Enabled(c, s, Exec(who, answer))
    ensures var e := ExecStep(c, s, s.execs[who], answer);
      Grows(s.world, e.world) && SafeSink(c, e.world)
  {
    var pc := s.execs[who];
    assert SafePC(c, s.world, pc);
    if pc.Mark? && pc.op.Writing? {
      SentWorldSafe(c, s, pc.cur, pc.op, pc.attempt, answer);
    } else if pc.Call? && answer.Acked? {
      AckedWorldSafe(c, s, pc.cur, pc.op, pc.attempt);
    } else {
      QuietWorld(c, s, pc, answer);
    }
  }

  /** The executor's position after a connector call. */
  lemma CallPCSafe(c: Config, s: Engine, cur: Job, op: Op, attempt: nat, answer: Answer)
    requires SafePC(c, s.world, Call(cur, op, attempt)) && CanAnswer(c, s, Call(cur, op, attempt), answer)
    ensures var e := ExecStep(c, s, Call(cur, op, attempt), answer); SafePC(c, e.world, e.pc)
  {
    var w := s.world;
    match answer {
      case Got(page) =>
      case Acked => PrefixGrows(c, w, w.(acked := w.acked + {c.scan.pos(cur.cursor)}), c.scan.pos(cur.cursor));
      case _ =>
    }
  }

  lemma MarkPCSafe(c: Config, s: Engine, cur: Job, op: Op, attempt: nat, answer: Answer)
    requires SafePC(c, s.world, Mark(cur, op, attempt))
    ensures var e := ExecStep(c, s, Mark(cur, op, attempt), answer); SafePC(c, e.world, e.pc)
  {
    PrefixGrows(c, s.world, SentPage(c, s.world, cur, op), c.scan.pos(cur.cursor));
  }

  /** The executor's position after any other step; none of them touches the world. */
  lemma QuietPCSafe(c: Config, s: Engine, pc: PC, answer: Answer)
    requires SafeJob(c, s.job, s.world) && SafePC(c, s.world, pc)
    requires !pc.Call? && !pc.Mark? && CanAnswer(c, s, pc, answer)
    ensures var e := ExecStep(c, s, pc, answer); SafePC(c, s.world, e.pc) && e.world == s.world
  {
    match pc {
      case Top =>
      case _ =>
    }
  }

  /** The executor's own position after its step. */
  lemma ExecPCSafe(c: Config, s: Engine, who: nat, answer: Answer)
    requires Safe(c, s) && Enabled(c, s, Exec(who, answer))
    ensures var e := ExecStep(c, s, s.execs[who], answer); SafePC(c, e.world, e.pc)
  {
    match s.execs[who] {
      case Mark(cur, op, attempt) => MarkPCSafe(c, s, cur, op, attempt, answer);
      case Call(cur, op, attempt) => CallPCSafe(c, s, cur, op, attempt, answer);
      case _ => QuietPCSafe(c, s, s.execs[who], answer);
    }
  }

  lemma JobGrows(c: Config, j: Job, w: World, w': World)
    requires SafeJob(c, j, w) && Grows(w, w')
    ensures SafeJob(c, j, w')
  {
    PrefixGrows(c, w, w', Position(c, j));
    if j.state == Succeeded {
      PrefixGrows(c, w, w', |c.scan.pages|);
    }
  }

  lemma CommitSafe(c: Config, s: Engine, cur: Job, page: Page, now: Time)
    requires Safe(c, s) && SafePC(c, s.world, Commit(cur, page))
    ensures SafeJob(c, CheckpointedJob(s.job, page, now), s.world)
  {
    var p := c.scan.pos(cur.cursor);
    assert PrefixAcked(c, s.world, p + 1);
  }

  /** The durable row after one executor step. */
  lemma ExecJobSafe(c: Config, s: Engine, who: nat, answer: Answer)
    requires Safe(c, s) && Enabled(c, s, Exec(who, answer))
    ensures var e := ExecStep(c, s, s.execs[who], answer);
      Grows(s.world, e.world) ==> SafeJob(c, e.job, e.world)
  {
    var pc := s.execs[who];
    var e := ExecStep(c, s, pc, answer);
    if pc.Commit? {
      CommitSafe(c, s, pc.cur, pc.page, if answer.Tau? then answer.now else 0);
    } else if Grows(s.world, e.world) {
      assert SafeJob(c, e.job, s.world);
      JobGrows(c, e.job, s.world, e.world);
    }
  }

  lemma ExecSafe(c: Config, s: Engine, who: nat, answer: Answer)
    requires Safe(c, s) && Enabled(c, s, Exec(who, answer))
    ensures Safe(c, Step(c, s, Exec(who, answer))) && Grows(s.world, Step(c, s, Exec(who, answer)).world)
  {
    var e := ExecStep(c, s, s.execs[who], answer);
    ExecWorldSafe(c, s, who, answer);
    ExecPCSafe(c, s, who, answer);
    ExecJobSafe(c, s, who, answer);
    forall i | 0 <= i < |s.execs| && i != who
      ensures SafePC(c, e.world, s.execs[i])
    {
      PCGrows(c, s.world, e.world, s.execs[i]);
    }
  }

  lemma InitSafe(c: Config, s: Engine)
    requires Init(c, s)
    ensures Safe(c, s)
  {
    assert forall id :: id in s.world.sink ==> OldRow(c, s.world, id);
  }

  lemma StepSafe(c: Config, s: Engine, a: Action)
    requires Safe(c, s) && Enabled(c, s, a)
    ensures Safe(c, Step(c, s, a)) && Grows(s.world, Step(c, s, a).world)
  {
    match a {
      case Exec(who, answer) => ExecSafe(c, s, who, answer);
      case Landing(p, part) =>
        PutSafe(c, s.world, p, part);
        LandingSafe(c, s, p, part);
      case _ => CallsSafe(c, s, a);
    }
  }

  lemma LandingSafe(c: Config, s: Engine, p: nat, part: seq<Record>)
    requires Safe(c, s) && Enabled(c, s, Landing(p, part))
    requires SafeSink(c, s.world.(sink := Put(s.world.sink, part)))
    ensures Safe(c, Step(c, s, Landing(p, part)))
  {
    var w' := s.world.(sink := Put(s.world.sink, part));
    JobGrows(c, s.job, s.world, w');
    forall i | 0 <= i < |s.execs|
      ensures SafePC(c, w', s.execs[i])
    {
      PCGrows(c, s.world, w', s.execs[i]);
    }
  }

  lemma CallsSafe(c: Config, s: Engine, a: Action)
    requires Safe(c, s) && Enabled(c, s, a) && !a.Exec? && !a.Landing?
    ensures Safe(c, Step(c, s, a)) && Grows(s.world, Step(c, s, a).world)
  {
    var s' := Step(c, s, a);
    assert SafeJob(c, s'.job, s.world);
    JobGrows(c, s'.job, s.world, s'.world);
    assert SafeSink(c, s'.world) by {
      forall id | id in s'.world.sink
        ensures OldRow(c, s'.world, id) || SentRow(c, s'.world, id)
      {
        assert OldRow(c, s.world, id) || SentRow(c, s.world, id);
      }
      assert forall p :: p in s.world.tried ==> PrefixAcked(c, s.world, p) ==> PrefixAcked(c, s'.world, p);
    }
    forall i | 0 <= i < |s'.execs|
      ensures SafePC(c, s'.world, s'.execs[i])
    {
      if i < |s.execs| && !a.Crash? {
        PCGrows(c, s.world, s'.world, s.execs[i]);
      }
    }
  }

  /** Every reachable state is safe, and what the sink acknowledged stays acknowledged. */
  lemma {:induction false} RunSafe(c: Config, states: seq<Engine>, acts: seq<Action>, k: nat)
    requires IsRun(c, states, acts) && Init(c, states[0]) && k < |states|
    ensures Safe(c, states[k])
    ensures forall i :: 0 <= i <= k ==> Grows(states[i].world, states[k].world)
  {
    if k == 0 {
      InitSafe(c, states[0]);
    } else {
      RunSafe(c, states, acts, k - 1);
      StepSafe(c, states[k - 1], acts[k - 1]);
    }
  }

  /**
   Prefix safety, in every run and however many executors overlap: the pages
   before the durable position are acknowledged, their rows are in the sink, and
   a row of the sink that differs from its initial one belongs to a page whose
   predecessors were all acknowledged. No row is ever lost.
   */
  lemma PrefixSafety(c: Config, states: seq<Engine>, acts: seq<Action>, k: nat)
    requires IsRun(c, states, acts) && Init(c, states[0]) && k < |states|
    ensures var s := states[k];
      && PrefixAcked(c, s.world, Position(c, s.job))
      && (s.job.state == Succeeded ==> PrefixAcked(c, s.world, |c.scan.pages|))
      && (forall p, r | 0 <= p < Position(c, s.job) && r in c.scan.pages[p] :: r.id in s.world.sink && s.world.sink[r.id] == r)
      && (forall id :: id in c.initial ==> id in s.world.sink)
      && (forall id :: id in s.world.sink && !OldRow(c, s.world, id) ==>
            exists p: nat :: p < |c.scan.pages| && PrefixAcked(c, s.world, p) && s.world.sink[id] in c.scan.pages[p])
  {
    RunSafe(c, states, acts, k);
    var s := states[k];
    forall id | id in s.world.sink && !OldRow(c, s.world, id)
      ensures exists p: nat :: p < |c.scan.pages| && PrefixAcked(c, s.world, p) && s.world.sink[id] in c.scan.pages[p]
    {
      assert SentRow(c, s.world, id);
    }
  }

  /** The sink of a completed job: the old rows overridden by the rows of the scan. */
  ghost predicate Delivered(c: Config, sink: map<string, Record>) {
    && (forall p, r | 0 <= p < |c.scan.pages| && r in c.scan.pages[p] :: r.id in sink && sink[r.id] == r)
    && (forall id :: id in c.initial ==> id in sink)
    && (forall id :: id in sink ==>
          (exists p: nat :: p < |c.scan.pages| && sink[id] in c.scan.pages[p] && sink[id].id == id)
          || (id in c.initial && sink[id] == c.initial[id]))
  }

  /** Whenever the durable row says succeeded, the destination is complete. */
  lemma SucceededDelivers(c: Config, states: seq<Engine>, acts: seq<Action>, k: nat)
    requires IsRun(c, states, acts) && Init(c, states[0]) && k < |states|
    requires states[k].job.state == Succeeded
    ensures Delivered(c, states[k].world.sink)
  {
    RunSafe(c, states, acts, k);
    SafeDelivers(c, states[k]);
  }

  lemma SafeDelivers(c: Config, s: Engine)
    requires Safe(c, s) && PrefixAcked(c, s.world, |c.scan.pages|)
    ensures Delivered(c, s.world.sink)
  {
    var w := s.world;
    forall id | id in w.sink
      ensures (exists p: nat :: p < |c.scan.pages| && w.sink[id] in c.scan.pages[p] && w.sink[id].id == id)
              || (id in c.initial && w.sink[id] == c.initial[id])
    {
      assert OldRow(c, w, id) || SentRow(c, w, id);
    }
  }
}
