/**
 Two executors of one job. The checkpoint update and the Get that decides whether
 to stop are separate critical sections; a cancel before the first and a resume
 with a claim between them leave the old executor running beside a new one.
 Prefix safety survives (TransferSafety); the counters do not.
 */
module TransferOverlap {
  import opened Basics
  import opened Records
  import opened Jobs
  import opened Transfer

  /** Steps of the hosted engine. */
  predicate HostedActs(acts: seq<Action>) {
    forall i :: 0 <= i < |acts| ==> !acts[i].Prepare? && !acts[i].Start?
  }

  /** Some hosted run leads from s to s'. */
  ghost predicate Gets(c: Config, s: Engine, s': Engine) {
    exists states, acts :: IsRun(c, states, acts) && HostedActs(acts) && states[0] == s && states[|acts|] == s'
  }

  lemma GetsSelf(c: Config, s: Engine)
    ensures Gets(c, s, s)
  {
    assert IsRun(c, [s], []) && HostedActs([]);
  }

  lemma GetHop(c: Config, s0: Engine, s: Engine, a: Action)
    requires Gets(c, s0, s) && Enabled(c, s, a) && !a.Prepare? && !a.Start?
    ensures Gets(c, s0, Step(c, s, a))
  {
    var states, acts :| IsRun(c, states, acts) && HostedActs(acts) && states[0] == s0 && states[|acts|] == s;
    var states', acts' := states + [Step(c, s, a)], acts + [a];
    forall i | 0 <= i < |acts'|
      ensures Enabled(c, states'[i], acts'[i]) && Step(c, states'[i], acts'[i]) == states'[i + 1]
    {
      if i < |acts| {
        assert Enabled(c, states[i], acts[i]);
      }
    }
    assert IsRun(c, states', acts') && HostedActs(acts');
  }

  function Moved(s: Engine, who: nat, job: Job, pc: PC): Engine
    requires who < |s.execs|
  {
    s.(job := job, execs := s.execs[who := pc])
  }

  predicate CanRead(s: Engine, who: nat) {
    && who < |s.execs| && s.execs[who] == Top && !s.stop
    && s.job.state != CancelRequested && !s.job.sourceExhausted
  }

  /** From the loop head to the accepted page, in four steps. */
  lemma ReadHops(c: Config, s0: Engine, s: Engine, who: nat, page: Page)
    requires Gets(c, s0, s) && CanRead(s, who)
    requires Accepted(s.job, page) && ContractPage(c.scan, s.job.cursor, page)
    ensures Gets(c, s0, Moved(s, who, PhasedJob(s.job, PhaseRead),
              if page.records == [] then Commit(s.job, page) else Try(s.job, Writing(page), 1)))
  {
    var go := Exec(who, Tau(true, 0));
    var s1 := Moved(s, who, s.job, Try(s.job, Reading, 1));
    GetHop(c, s0, s, go);
    assert Step(c, s, go) == s1;
    var s2 := Moved(s, who, s.job, Mark(s.job, Reading, 1));
    GetHop(c, s0, s1, go);
    assert Step(c, s1, go) == s2;
    var s3 := Moved(s, who, PhasedJob(s.job, PhaseRead), Call(s.job, Reading, 1));
    GetHop(c, s0, s2, go);
    assert Step(c, s2, go) == s3;
    GetHop(c, s0, s3, Exec(who, Got(page)));
  }

  /** The state after executor who had its page acknowledged at the first attempt. */
  function Written(c: Config, s: Engine, who: nat, cur: Job, page: Page): Engine
    requires who < |s.execs|
  {
    var w := SentPage(c, s.world, cur, Writing(page));
    s.(job := PhasedJob(s.job, PhaseWrite), execs := s.execs[who := Commit(cur, page)],
       world := w.(acked := w.acked + {c.scan.pos(cur.cursor)}, sink := Put(w.sink, page.records)))
  }

  /** The state in which executor who is sending its page for the first time. */
  function Underway(c: Config, s: Engine, who: nat, cur: Job, page: Page): Engine
    requires who < |s.execs|
  {
    Moved(s, who, PhasedJob(s.job, PhaseWrite), Call(cur, Writing(page), 1)).(world := SentPage(c, s.world, cur, Writing(page)))
  }

  /** From the accepted page to the call that sends it, in two steps. */
  lemma SendHops(c: Config, s0: Engine, s: Engine, who: nat, cur: Job, page: Page)
    requires Gets(c, s0, s) && who < |s.execs| && s.execs[who] == Try(cur, Writing(page), 1)
    requires !s.stop && s.job.state != CancelRequested
    ensures Gets(c, s0, Underway(c, s, who, cur, page))
  {
    var go := Exec(who, Tau(true, 0));
    var s1 := Moved(s, who, s.job, Mark(cur, Writing(page), 1));
    GetHop(c, s0, s, go);
    assert Step(c, s, go) == s1;
    GetHop(c, s0, s1, go);
    assert Step(c, s1, go) == Underway(c, s, who, cur, page);
  }

  /** From the accepted page to its acknowledgement, in three steps. */
  lemma WriteHops(c: Config, s0: Engine, s: Engine, who: nat, cur: Job, page: Page)
    requires Gets(c, s0, s) && who < |s.execs| && s.execs[who] == Try(cur, Writing(page), 1)
    requires !s.stop && s.job.state != CancelRequested
    ensures Gets(c, s0, Written(c, s, who, cur, page))
  {
    SendHops(c, s0, s, who, cur, page);
    var s2 := Underway(c, s, who, cur, page);
    GetHop(c, s0, s2, Exec(who, Acked));
    assert Step(c, s2, Exec(who, Acked)) == Written(c, s, who, cur, page);
  }

  // ---- the witness: an empty page, then a page with one record ----

  const ROW := Record("a", [Finite(0.0)], map[])
  const FIRST := Page([], "1", false)
  const LAST := Page([ROW], "", true)

  predicate IsWitness(c: Config) {
    c.scan.pages == [[], [ROW]] && c.scan.pos("") == 0 && c.scan.pos("1") == 1
  }

  /** One record of one dimension at a time, on the hosted engine. */
  predicate Small(j: Job) {
    Hosted(j) && j.spec.batchSize == 1 && j.spec.dimension == 1 && j.spec.maxAttempts == 1
  }

  lemma WitnessPages(c: Config, j: Job)
    requires IsWitness(c) && Small(j)
    ensures j.cursor == "" ==> Accepted(j, FIRST) && ContractPage(c.scan, j.cursor, FIRST)
    ensures j.cursor == "1" ==> Accepted(j, LAST) && ContractPage(c.scan, j.cursor, LAST)
  {
    assert c.scan.pages[0] == [] && c.scan.pages[1] == [ROW];
  }

  /** No record counted yet, the last page to come. */
  predicate AtLastPage(s: Engine) {
    && s.job.records == 0 && s.job.batches == 0 && s.job.cursor == "1" && !s.job.sourceExhausted
    && !s.stop && s.ready && Small(s.job)
  }

  /** An executor has the empty first page and is about to write its checkpoint. */
  lemma FirstRead(c: Config, s0: Engine) returns (s: Engine)
    requires IsWitness(c) && Init(c, s0) && Small(s0.job)
    ensures Gets(c, s0, s) && s.job.state == Running && s.job.records == 0 && s.job.batches == 0
    ensures !s.stop && s.ready && Small(s.job) && |s.execs| == 1
    ensures s.execs[0].Commit? && s.execs[0].page == FIRST
  {
    var go := Exec(0, Tau(true, 0));
    GetsSelf(c, s0);
    GetHop(c, s0, s0, Claim(0));
    var s1 := Step(c, s0, Claim(0));
    GetHop(c, s0, s1, go);
    var s2 := Step(c, s1, go);
    WitnessPages(c, s2.job);
    ReadHops(c, s0, s2, 0, FIRST);
    s := Moved(s2, 0, PhasedJob(s2.job, PhaseRead), Commit(s2.job, FIRST));
  }

  /** Canceled before that checkpoint: the job is canceled, and the executor has yet to look. */
  lemma FirstCheckpoint(c: Config, s0: Engine, s: Engine) returns (t: Engine)
    requires Gets(c, s0, s) && s.job.state == Running && s.job.records == 0 && s.job.batches == 0
    requires !s.stop && s.ready && Small(s.job) && |s.execs| == 1
    requires s.execs[0].Commit? && s.execs[0].page == FIRST
    ensures Gets(c, s0, t) && t.job.state == Canceled && AtLastPage(t) && t.execs == [Check]
  {
    GetHop(c, s0, s, Operate(Cancel));
    var s1 := Step(c, s, Operate(Cancel));
    var go := Exec(0, Tau(true, 0));
    GetHop(c, s0, s1, go);
    t := Step(c, s1, go);
  }

  /** Resumed and claimed before it looks: two executors at the loop head. */
  lemma Joined(c: Config, s0: Engine, s: Engine) returns (t: Engine)
    requires Gets(c, s0, s) && s.job.state == Canceled && AtLastPage(s) && s.execs == [Check]
    ensures Gets(c, s0, t) && t.job.state == Running && AtLastPage(t) && t.execs == [Top, Top]
  {
    GetHop(c, s0, s, Operate(Resume));
    var s1 := Step(c, s, Operate(Resume));
    GetHop(c, s0, s1, Claim(0));
    var s2 := Step(c, s1, Claim(0));
    var look := Exec(0, Tau(true, 0));
    GetHop(c, s0, s2, look);
    var s3 := Step(c, s2, look);
    var join := Exec(1, Tau(true, 0));
    GetHop(c, s0, s3, join);
    t := Step(c, s3, join);
  }

  /** One of the two executors reads and acknowledges the last page. */
  lemma Acknowledged(c: Config, s0: Engine, s: Engine, who: nat) returns (t: Engine)
    requires IsWitness(c) && Gets(c, s0, s) && s.job.state == Running && AtLastPage(s)
    requires |s.execs| == 2 && who < 2 && s.execs[who] == Top
    ensures Gets(c, s0, t) && t.job.state == Running && AtLastPage(t)
    ensures |t.execs| == 2 && t.execs[who] == Commit(s.job, LAST) && t.execs[1 - who] == s.execs[1 - who]
  {
    WitnessPages(c, s.job);
    ReadHops(c, s0, s, who, LAST);
    var s1 := Moved(s, who, PhasedJob(s.job, PhaseRead), Try(s.job, Writing(LAST), 1));
    WriteHops(c, s0, s1, who, s.job, LAST);
    t := Written(c, s1, who, s.job, LAST);
  }

  /** One of them writes its checkpoint. */
  lemma Counted(c: Config, s0: Engine, s: Engine, who: nat) returns (t: Engine)
    requires Gets(c, s0, s) && (s.job.state == Running || s.job.state == Succeeded)
    requires |s.execs| == 2 && who < 2 && s.execs[who].Commit? && s.execs[who].page == LAST
    ensures Gets(c, s0, t)
    ensures t.job.state == Succeeded && t.job.sourceExhausted && t.job.records == s.job.records + 1
    ensures |t.execs| == 2 && t.execs[1 - who] == s.execs[1 - who]
  {
    var commit := Exec(who, Tau(true, 0));
    GetHop(c, s0, s, commit);
    t := Step(c, s, commit);
  }

  lemma BothAcknowledged(c: Config, s0: Engine) returns (t: Engine)
    requires IsWitness(c) && Init(c, s0) && Small(s0.job)
    ensures Gets(c, s0, t) && t.job.state == Running && t.job.records == 0 && |t.execs| == 2
    ensures t.execs[0].Commit? && t.execs[0].page == LAST && t.execs[1].Commit? && t.execs[1].page == LAST
  {
    var read := FirstRead(c, s0);
    var canceled := FirstCheckpoint(c, s0, read);
    var both := Joined(c, s0, canceled);
    var once := Acknowledged(c, s0, both, 0);
    t := Acknowledged(c, s0, once, 1);
  }

  lemma WitnessTotal(c: Config)
    requires IsWitness(c)
    ensures Total(c.scan, 2) == 1
  {
    assert Total(c.scan, 1) == Total(c.scan, 0) + |c.scan.pages[0]|;
  }

  /** A reachable succeeded job whose record count is twice the number of records of its scan. */
  lemma OverlapMiscounts(c: Config, s0: Engine) returns (t: Engine)
    requires IsWitness(c) && Init(c, s0) && Small(s0.job)
    ensures Gets(c, s0, t) && t.job.state == Succeeded && Position(c, t.job) == 2
    ensures Total(c.scan, 2) == 1 && t.job.records == 2
  {
    var twice := BothAcknowledged(c, s0);
    var counted := Counted(c, s0, twice, 0);
    t := Counted(c, s0, counted, 1);
    WitnessTotal(c);
  }

  /** The executor at the loop head of a job that is queued again, up to the call that sends the last page. */
  lemma RequeuedSends(c: Config, s0: Engine, s: Engine) returns (t: Engine)
    requires IsWitness(c) && Gets(c, s0, s) && s.job.state == Queued && AtLastPage(s) && s.execs == [Top]
    ensures Gets(c, s0, t) && t.job.state == Queued && t.job.sinkResource == s.job.sinkResource
    ensures t.execs == [Call(s.job, Writing(LAST), 1)]
  {
    WitnessPages(c, s.job);
    ReadHops(c, s0, s, 0, LAST);
    var s1 := Moved(s, 0, PhasedJob(s.job, PhaseRead), Try(s.job, Writing(LAST), 1));
    SendHops(c, s0, s1, 0, s.job, LAST);
    t := Underway(c, s1, 0, s.job, LAST);
  }

  /** Canceled and resumed around the first checkpoint, and back at the loop head. */
  lemma Requeued(c: Config, s0: Engine) returns (s: Engine)
    requires IsWitness(c) && Init(c, s0) && Small(s0.job)
    ensures Gets(c, s0, s) && s.job.state == Queued && AtLastPage(s) && s.execs == [Top]
  {
    var read := FirstRead(c, s0);
    var canceled := FirstCheckpoint(c, s0, read);
    GetHop(c, s0, canceled, Operate(Resume));
    var resumed := Step(c, canceled, Operate(Resume));
    var look := Exec(0, Tau(true, 0));
    GetHop(c, s0, resumed, look);
    s := Step(c, resumed, look);
  }

  /** A row that nobody may be working on, and an executor that is sending its page. */
  lemma InactiveSends(c: Config, s0: Engine) returns (s: Engine)
    requires IsWitness(c) && Init(c, s0) && Small(s0.job)
    ensures Gets(c, s0, s) && s.job.state == Queued && |s.execs| == 1 && s.execs[0].Call? && s.execs[0].op == Writing(LAST)
  {
    var top := Requeued(c, s0);
    s := RequeuedSends(c, s0, top);
  }

  /** Without any second claim: the same executor takes a queued job straight to succeeded. */
  lemma QueuedSucceeds(c: Config, s0: Engine) returns (s: Engine)
    requires IsWitness(c) && Init(c, s0) && Small(s0.job)
    ensures Gets(c, s0, s) && |s.execs| == 1 && s.job.state == Queued
    ensures Enabled(c, s, Exec(0, Tau(true, 0))) && Step(c, s, Exec(0, Tau(true, 0))).job.state == Succeeded
  {
    var sending := InactiveSends(c, s0);
    GetHop(c, s0, sending, Exec(0, Acked));
    s := Step(c, sending, Exec(0, Acked));
  }

  /** A fresh job over a scan of one page, up to the call that sends it. */
  lemma FreshSends(c: Config, s0: Engine) returns (s: Engine)
    requires c.scan.pages == [[ROW]] && c.scan.pos("") == 0 && Init(c, s0) && Small(s0.job)
    ensures Gets(c, s0, s) && |s.execs| == 1 && s.execs[0].Call? && s.execs[0].op == Writing(LAST)
  {
    var go := Exec(0, Tau(true, 0));
    GetsSelf(c, s0);
    GetHop(c, s0, s0, Claim(0));
    var s1 := Step(c, s0, Claim(0));
    GetHop(c, s0, s1, go);
    var s2 := Step(c, s1, go);
    assert c.scan.pages[0] == [ROW];
    ReadHops(c, s0, s2, 0, LAST);
    var s3 := Moved(s2, 0, PhasedJob(s2.job, PhaseRead), Try(s2.job, Writing(LAST), 1));
    SendHops(c, s0, s3, 0, s2.job, LAST);
    s := Underway(c, s3, 0, s2.job, LAST);
  }

  /** Such a source and such a job exist. */
  lemma WitnessExists() returns (c: Config, s0: Engine)
    ensures IsWitness(c) && Init(c, s0) && Small(s0.job)
  {
    c := Config(Scan([[], [ROW]], s => if s == "1" then 1 else 0), map[]);
    s0 := Engine(NewJob("j", Spec("", "n", "s", "d", 1, 1, 1, -1), None, 0, "", "sf", "df", "r"),
                 [], false, true, World({}, {}, map[], map[]));
  }
}
