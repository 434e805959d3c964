/**
 The in-memory teaching connector (examples/custom/memorydb/memorydb.go), and the
 proof that it meets the Source and Sink contract the engine relies on.
 */
module MemoryDB {
  import opened Basics
  import opened Listings
  import opened Decimals
  import opened Records
  import opened Jobs
  import opened Transfer
  import opened TransferSafety
  import opened TransferExact

  // ---- cursors ----

  const PREFIX := "{\"v\":1,\"offset\":"

  function Cursor(offset: nat): string {
    PREFIX + Format(offset) + "}"
  }

  /** The offset of a cursor in the layout the connector writes; "" starts a scan. */
  function Offset(cursor: string): Option<nat> {
    if cursor == "" then Some(0)
    else if |cursor| <= |PREFIX| || cursor[..|PREFIX|] != PREFIX || cursor[|cursor| - 1] != '}' then None
    else
      match Parse(cursor[|PREFIX|..|cursor| - 1])
      case None => None
      case Some(n) => if n < 0 then None else Some(n)
  }

  lemma CursorRoundTrip(offset: nat)
    ensures Offset(Cursor(offset)) == Some(offset) && Cursor(offset) != ""
    ensures Cursor(offset) == "{\"v\":1,\"offset\":" + Format(offset) + "}"
  {
    var s := Cursor(offset);
    FormatRoundTrip(offset);
    assert s[..|PREFIX|] == PREFIX;
    assert s[|PREFIX|..|s| - 1] == Format(offset);
  }

  /** Read on a listed table: the page at an offset, or an error. */
  function ReadPage(rs: seq<Record>, cursor: string, limit: int): Result<Page, Error> {
    if limit < 1 then Err(Invalid)
    else
      match Offset(cursor)
      case None => Err(Invalid)
      case Some(offset) =>
        if offset > |rs| then Err(Invalid)
        else
          var end := offset + Min(limit, |rs| - offset);
          Ok(Page(rs[offset..end], if end == |rs| then "" else Cursor(end), end == |rs|))
  }

  class DB {
    var records: map<string, Record>

    predicate Valid()
      reads this
    {
      Keyed(records)
    }

    /** New: later records replace earlier ones with the same id. */
    constructor (rs: seq<Record>)
      ensures Valid() && records == Put(map[], rs)
      ensures forall i :: 0 <= i < |rs| ==> rs[i].id in records
      ensures forall id :: id in records ==> !Absent(rs, id)
      ensures forall i: nat :: Latest(rs, i) ==> records[rs[i].id] == rs[i]
    {
      var table: map<string, Record> := map[];
      var i := 0;
      while i < |rs|
        invariant i <= |rs| && table == Put(map[], rs[..i]) && Keyed(table)
      {
        PutNext(map[], rs, i);
        table := table[rs[i].id := rs[i]];
        i := i + 1;
      }
      assert rs[..i] == rs;
      PutLatest(map[], rs);
      records := table;
    }

    /** Records: every record once, sorted by id. */
    method Records() returns (rs: seq<Record>)
      requires Valid()
      ensures Listing(records, rs)
    {
      rs := SortById(records);
    }

    method Read(cursor: string, limit: int) returns (r: Result<Page, Error>)
      requires Valid()
      ensures exists rs :: Listing(records, rs) && r == ReadPage(rs, cursor, limit)
      ensures r.Ok? ==> Offset(cursor).Some? && exists rs :: Listing(records, rs) && PageFrom(rs, Offset(cursor).value, limit, r.value)
      ensures r.Err? ==> limit < 1 || Offset(cursor) == None || exists rs :: Listing(records, rs) && Offset(cursor).value > |rs|
    {
      var rs := Records();
      r := ReadPage(rs, cursor, limit);
    }

    /** Upsert, canceled after some of the records or acknowledged after all of them. */
    method Upsert(rs: seq<Record>, until: nat) returns (acknowledged: bool)
      requires Valid()
      modifies this
      ensures Valid()
      ensures acknowledged <==> until >= |rs|
      ensures records == Put(old(records), rs[..Min(until, |rs|)])
      ensures acknowledged ==> forall i: nat :: Latest(rs, i) ==> rs[i].id in records && records[rs[i].id] == rs[i]
      ensures forall id :: Absent(rs, id) ==> (id in records <==> id in old(records)) && (id in records ==> records[id] == old(records)[id])
    {
      var i := 0;
      while i < |rs|
        invariant i <= |rs| && i <= until && Valid() && records == Put(old(records), rs[..i])
      {
        if i == until {
          PutLatest(old(records), rs[..i]);
          assert forall id :: Absent(rs, id) ==> Absent(rs[..i], id);
          return false;
        }
        PutNext(old(records), rs, i);
        records := records[rs[i].id := rs[i]];
        i := i + 1;
      }
      assert rs[..i] == rs;
      PutLatest(old(records), rs);
      return true;
    }
  }

  /** No later record of the list has the same id. */
  predicate Latest(rs: seq<Record>, i: nat) {
    i < |rs| && forall k :: i < k < |rs| ==> rs[k].id != rs[i].id
  }

  predicate Absent(rs: seq<Record>, id: string) {
    forall i :: 0 <= i < |rs| ==> rs[i].id != id
  }

  lemma {:induction false} PutOne(sink: map<string, Record>, rs: seq<Record>, i: nat)
    requires i < |rs|
    ensures rs[i].id in Put(sink, rs)
    ensures Latest(rs, i) ==> Put(sink, rs)[rs[i].id] == rs[i]
    decreases |rs|
  {
    var front := rs[..|rs| - 1];
    if i < |front| {
      PutOne(sink, front, i);
      assert front[i] == rs[i] && (Latest(rs, i) ==> Latest(front, i));
    }
  }

  lemma {:induction false} PutOther(sink: map<string, Record>, rs: seq<Record>, id: string)
    requires Absent(rs, id)
    ensures (id in Put(sink, rs) <==> id in sink) && (id in sink ==> Put(sink, rs)[id] == sink[id])
  {
    if rs != [] {
      PutOther(sink, rs[..|rs| - 1], id);
    }
  }

  /** Writing records in order leaves the last one of each id, and the rows of other ids. */
  lemma PutLatest(sink: map<string, Record>, rs: seq<Record>)
    ensures forall i :: 0 <= i < |rs| ==> rs[i].id in Put(sink, rs)
    ensures forall i: nat :: Latest(rs, i) ==> Put(sink, rs)[rs[i].id] == rs[i]
    ensures forall id :: Absent(rs, id) ==> (id in Put(sink, rs) <==> id in sink) && (id in sink ==> Put(sink, rs)[id] == sink[id])
  {
    forall i | 0 <= i < |rs|
      ensures rs[i].id in Put(sink, rs)
      ensures Latest(rs, i) ==> Put(sink, rs)[rs[i].id] == rs[i]
    {
      PutOne(sink, rs, i);
    }
    forall id | Absent(rs, id)
      ensures (id in Put(sink, rs) <==> id in sink) && (id in sink ==> Put(sink, rs)[id] == sink[id])
    {
      PutOther(sink, rs, id);
    }
  }

  /** The page at an offset of a listing: as many records as there are, up to the limit, and where to go on. */
  predicate PageFrom(rs: seq<Record>, offset: nat, limit: int, page: Page) {
    && limit >= 1 && offset <= |rs|
    && (if |rs| - offset <= limit then page == Page(rs[offset..], "", true)
        else page == Page(rs[offset..offset + limit], Cursor(offset + limit), false))
  }

  lemma PutNext(sink: map<string, Record>, rs: seq<Record>, i: nat)
    requires i < |rs|
    ensures Put(sink, rs[..i + 1]) == Put(sink, rs[..i])[rs[i].id := rs[i]]
  {
    assert rs[..i + 1][..i] == rs[..i];
  }

  // ---- the scan an engine sees ----

  /** How many pages a listing of n records has: an empty table has one empty page. */
  function PageCount(n: nat, limit: nat): (k: nat)
    requires limit > 0
    ensures k > 0
    ensures k == 1 || (k - 1) * limit < n <= k * limit
    ensures n <= k * limit
  {
    if n <= limit then 1 else 1 + PageCount(n - limit, limit)
  }

  function PageOf(rs: seq<Record>, limit: nat, i: nat): seq<Record>
    requires limit > 0 && i * limit <= |rs|
  {
    rs[i * limit..Min((i + 1) * limit, |rs|)]
  }

  lemma MulStep(i: nat, limit: nat)
    ensures (i + 1) * limit == i * limit + limit
  {
  }

  lemma MulMonotone(a: nat, b: nat, limit: nat)
    requires a <= b
    ensures a * limit <= b * limit
  {
  }

  lemma PageInRange(n: nat, limit: nat, i: nat)
    requires limit > 0 && i < PageCount(n, limit)
    ensures i * limit <= n
    ensures (i + 1) * limit >= n <==> i + 1 == PageCount(n, limit)
  {
    var k := PageCount(n, limit);
    MulMonotone(i, k - 1, limit);
    if i + 1 < k {
      MulMonotone(i + 1, k - 1, limit);
    }
  }

  function Quotient(n: nat, d: nat): (q: nat)
    requires d > 0
    ensures q * d <= n < (q + 1) * d
  {
    if n < d then 0
    else
      var q := 1 + Quotient(n - d, d);
      MulStep(q - 1, d);
      MulStep(q, d);
      q
  }

  /** The page index of an offset. */
  function PageIndex(cursor: string, limit: nat): nat
    requires limit > 0
  {
    match Offset(cursor)
    case None => 0
    case Some(offset) => Quotient(offset, limit)
  }

  function MemoryScan(rs: seq<Record>, limit: nat): Scan
    requires limit > 0
  {
    Scan(seq(PageCount(|rs|, limit), i requires 0 <= i < PageCount(|rs|, limit) =>
           PageInRange(|rs|, limit, i); PageOf(rs, limit, i)),
         cursor => PageIndex(cursor, limit))
  }

  /** A cursor a read at this limit can have produced, or the initial one. */
  predicate Aligned(cursor: string, n: nat, limit: nat)
    requires limit > 0
  {
    exists i: nat :: i < PageCount(n, limit) && Offset(cursor) == Some(i * limit)
  }

  lemma {:induction false} QuotientOfMultiple(i: nat, limit: nat)
    requires limit > 0
    ensures Quotient(i * limit, limit) == i
  {
    var q := Quotient(i * limit, limit);
    if q < i {
      MulMonotone(q + 1, i, limit);
    } else if q > i {
      MulMonotone(i + 1, q, limit);
      MulStep(i, limit);
    }
  }

  /** Every page the connector returns is the one the contract asks for, and its cursor can be read again. */
  lemma ReadKeepsContract(rs: seq<Record>, limit: nat, cursor: string)
    requires limit > 0 && Aligned(cursor, |rs|, limit)
    ensures ReadPage(rs, cursor, limit).Ok?
    ensures var page := ReadPage(rs, cursor, limit).value;
      && |page.records| <= limit
      && ContractPage(MemoryScan(rs, limit), cursor, page)
      && (!page.done ==> page.next != "" && page.next != cursor && Aligned(page.next, |rs|, limit))
  {
    var i: nat :| i < PageCount(|rs|, limit) && Offset(cursor) == Some(i * limit);
    PageInRange(|rs|, limit, i);
    MulStep(i, limit);
    QuotientOfMultiple(i, limit);
    var page := ReadPage(rs, cursor, limit).value;
    assert MemoryScan(rs, limit).pages[i] == PageOf(rs, limit, i) == page.records;
    if !page.done {
      var end := i * limit + Min(limit, |rs| - i * limit);
      assert end == (i + 1) * limit;
      CursorRoundTrip(end);
      QuotientOfMultiple(i + 1, limit);
      assert i + 1 < PageCount(|rs|, limit);
      assert Offset(page.next) == Some((i + 1) * limit);
    }
  }

  lemma PageRow(rs: seq<Record>, limit: nat, p: nat, r: Record)
    requires limit > 0 && p < PageCount(|rs|, limit) && r in MemoryScan(rs, limit).pages[p]
    ensures r in rs
  {
    PageInRange(|rs|, limit, p);
    assert MemoryScan(rs, limit).pages[p] == PageOf(rs, limit, p);
  }

  /** Every row of the listing is on a page. */
  lemma RowPage(rs: seq<Record>, limit: nat, n: nat) returns (p: nat)
    requires limit > 0 && n < |rs|
    ensures p < PageCount(|rs|, limit) && rs[n] in MemoryScan(rs, limit).pages[p]
  {
    p := Quotient(n, limit);
    var k := PageCount(|rs|, limit);
    if p >= k {
      MulMonotone(k, p, limit);
    }
    PageInRange(|rs|, limit, p);
    MulStep(p, limit);
    var page := PageOf(rs, limit, p);
    assert page[n - p * limit] == rs[n];
    assert MemoryScan(rs, limit).pages[p] == page;
  }

  lemma MemoryScanValid(records: map<string, Record>, rs: seq<Record>, limit: nat)
    requires limit > 0 && Keyed(records) && Listing(records, rs)
    ensures ValidScan(MemoryScan(rs, limit))
  {
    var scan := MemoryScan(rs, limit);
    forall p, q, r, s | 0 <= p < |scan.pages| && 0 <= q < |scan.pages|
        && r in scan.pages[p] && s in scan.pages[q] && r.id == s.id
      ensures r == s
    {
      PageRow(rs, limit, p, r);
      PageRow(rs, limit, q, s);
    }
    QuotientOfMultiple(0, limit);
  }

  /** The first k pages of the scan, one after the other. */
  function Concatenated(pages: seq<seq<Record>>, k: nat): seq<Record>
    requires k <= |pages|
  {
    if k == 0 then [] else Concatenated(pages, k - 1) + pages[k - 1]
  }

  lemma {:induction false} PagesConcatenate(rs: seq<Record>, limit: nat, k: nat)
    requires limit > 0 && k <= PageCount(|rs|, limit)
    ensures Concatenated(MemoryScan(rs, limit).pages, k) == rs[..Min(k * limit, |rs|)]
  {
    if k > 0 {
      PagesConcatenate(rs, limit, k - 1);
      PageInRange(|rs|, limit, k - 1);
      MulStep(k - 1, limit);
      assert MemoryScan(rs, limit).pages[k - 1] == PageOf(rs, limit, k - 1);
    }
  }

  /** The pages of a full scan are the sorted table, for every page size. */
  lemma PagesAreTable(rs: seq<Record>, limit: nat)
    requires limit > 0
    ensures Concatenated(MemoryScan(rs, limit).pages, PageCount(|rs|, limit)) == rs
  {
    PagesConcatenate(rs, limit, PageCount(|rs|, limit));
  }

  /** The rows of the scan are exactly these. */
  ghost predicate Covers(scan: Scan, rs: seq<Record>) {
    && (forall p, r | 0 <= p < |scan.pages| && r in scan.pages[p] :: r in rs)
    && (forall r :: r in rs ==> exists p :: 0 <= p < |scan.pages| && r in scan.pages[p])
  }

  lemma MemoryCovers(rs: seq<Record>, limit: nat)
    requires limit > 0
    ensures Covers(MemoryScan(rs, limit), rs)
  {
    var scan := MemoryScan(rs, limit);
    forall p, r | 0 <= p < |scan.pages| && r in scan.pages[p]
      ensures r in rs
    {
      PageRow(rs, limit, p, r);
    }
    forall r | r in rs
      ensures exists p :: 0 <= p < |scan.pages| && r in scan.pages[p]
    {
      var n :| 0 <= n < |rs| && rs[n] == r;
      var p := RowPage(rs, limit, n);
    }
  }

  lemma DeliveredIsOverride(c: Config, source: map<string, Record>, rs: seq<Record>, sink: map<string, Record>)
    requires Keyed(source) && Listing(source, rs) && Covers(c.scan, rs) && Delivered(c, sink)
    ensures sink == c.initial + source
  {
    forall id | id in source
      ensures id in sink && sink[id] == source[id]
    {
      assert source[id] in rs;
      var p :| 0 <= p < |c.scan.pages| && source[id] in c.scan.pages[p];
    }
  }

  // ---- an engine over this connector ----

  /** The step is the answer of a source read. */
  predicate IsRead(s: Engine, a: Action) {
    a.Exec? && a.who < |s.execs| && s.execs[a.who].Call? && s.execs[a.who].op.Reading?
  }

  /** A read fails, or returns what DB.Read returns at the executor's cursor and the job's batch size. */
  predicate ReadAnswer(rs: seq<Record>, pc: PC, answer: Answer)
    requires pc.Call?
  {
    answer.Failure? || (answer.Got? && ReadPage(rs, pc.cur.cursor, pc.cur.spec.batchSize) == Ok(answer.page))
  }

  /** One step of an engine whose source is this connector; nothing is assumed of the pages it reads. */
  ghost predicate MemoryStep(c: Config, rs: seq<Record>, s: Engine, a: Action, s': Engine) {
    if IsRead(s, a) then ReadAnswer(rs, s.execs[a.who], a.answer) && s' == Executed(c, s, a.who, a.answer)
    else Enabled(c, s, a) && s' == Step(c, s, a)
  }

  ghost predicate MemoryRun(c: Config, rs: seq<Record>, states: seq<Engine>, acts: seq<Action>) {
    && |states| == |acts| + 1 && NewRun(c, states[0])
    && forall i :: 0 <= i < |acts| ==> MemoryStep(c, rs, states[i], acts[i], states[i + 1])
  }

  /** A cursor of the scan, under the job's own page size. */
  ghost predicate GoodCur(n: nat, limit: nat, j: Job) {
    limit > 0 && Aligned(j.cursor, n, limit) && j.spec.batchSize == limit
  }

  /** Every cursor an executor works from, or is about to store, can be read. */
  ghost predicate GoodPC(n: nat, limit: nat, pc: PC) {
    match pc
    case Try(cur, op, _) => GoodCur(n, limit, cur) && GoodOp(n, limit, op)
    case Mark(cur, op, _) => GoodCur(n, limit, cur) && GoodOp(n, limit, op)
    case Call(cur, op, _) => GoodCur(n, limit, cur) && GoodOp(n, limit, op)
    case Back(cur, op, _) => GoodCur(n, limit, cur) && GoodOp(n, limit, op)
    case Sleep(cur, op, _) => GoodCur(n, limit, cur) && GoodOp(n, limit, op)
    case Commit(cur, page) => GoodCur(n, limit, cur) && GoodNext(n, limit, page)
    case _ => true
  }

  ghost predicate GoodNext(n: nat, limit: nat, page: Page) {
    limit > 0 && Aligned(page.next, n, limit)
  }

  ghost predicate GoodOp(n: nat, limit: nat, op: Op) {
    op.Writing? ==> GoodNext(n, limit, op.page)
  }

  ghost predicate Readable(n: nat, limit: nat, s: Engine) {
    GoodCur(n, limit, s.job) && forall i :: 0 <= i < |s.execs| ==> GoodPC(n, limit, s.execs[i])
  }

  lemma StartAligned(n: nat, limit: nat)
    requires limit > 0
    ensures Aligned("", n, limit)
  {
    assert Offset("") == Some(0 * limit);
  }

  /** What a read returns keeps the contract, and its next cursor, the empty one at the end included, is a cursor of the scan. */
  lemma ReadIsContract(rs: seq<Record>, limit: nat, cur: Job, page: Page)
    requires GoodCur(|rs|, limit, cur) && ReadPage(rs, cur.cursor, cur.spec.batchSize) == Ok(page)
    ensures ContractPage(MemoryScan(rs, limit), cur.cursor, page) && GoodNext(|rs|, limit, page)
  {
    ReadKeepsContract(rs, limit, cur.cursor);
    StartAligned(|rs|, limit);
    if page.done {
      assert page.next == "";
    }
  }

  /** So every step of such an engine is a step of the engine over a contract-abiding source. */
  lemma MemoryStepEnabled(c: Config, rs: seq<Record>, limit: nat, s: Engine, a: Action, s': Engine)
    requires Readable(|rs|, limit, s) && c.scan == MemoryScan(rs, limit) && MemoryStep(c, rs, s, a, s')
    ensures Enabled(c, s, a) && s' == Step(c, s, a)
    ensures IsRead(s, a) && a.answer.Got? ==> GoodNext(|rs|, limit, a.answer.page)
  {
    if IsRead(s, a) && a.answer.Got? {
      assert GoodPC(|rs|, limit, s.execs[a.who]);
      ReadIsContract(rs, limit, s.execs[a.who].cur, a.answer.page);
    }
  }

  lemma ExecReadable(c: Config, n: nat, limit: nat, s: Engine, pc: PC, answer: Answer)
    requires GoodCur(n, limit, s.job) && GoodPC(n, limit, pc)
    requires answer.Got? && pc.Call? ==> GoodNext(n, limit, answer.page)
    ensures var e := ExecStep(c, s, pc, answer); GoodCur(n, limit, e.job) && GoodPC(n, limit, e.pc)
  {
    match pc {
      case Top =>
      case _ =>
    }
  }

  lemma StepReadable(c: Config, n: nat, limit: nat, s: Engine, a: Action)
    requires Readable(n, limit, s) && Enabled(c, s, a)
    requires IsRead(s, a) && a.answer.Got? ==> GoodNext(n, limit, a.answer.page)
    ensures Readable(n, limit, Step(c, s, a))
  {
    if a.Exec? {
      assert GoodPC(n, limit, s.execs[a.who]);
      assert CanAnswer(c, s, s.execs[a.who], a.answer);
      ExecReadable(c, n, limit, s, s.execs[a.who], a.answer);
    } else {
      OtherProgress(c, s, a);
    }
  }

  lemma {:induction false} MemoryRunReadable(c: Config, rs: seq<Record>, limit: nat, states: seq<Engine>, acts: seq<Action>, k: nat)
    requires MemoryRun(c, rs, states, acts) && k < |states|
    requires limit > 0 && c.scan == MemoryScan(rs, limit) && states[0].job.spec.batchSize == limit
    ensures Readable(|rs|, limit, states[k])
  {
    if k == 0 {
      StartAligned(|rs|, limit);
    } else {
      MemoryRunReadable(c, rs, limit, states, acts, k - 1);
      MemoryStepEnabled(c, rs, limit, states[k - 1], acts[k - 1], states[k]);
      StepReadable(c, |rs|, limit, states[k - 1], acts[k - 1]);
    }
  }

  /** Every run of the engine over this connector is a run over a contract-abiding source. */
  lemma MemoryRunIsRun(c: Config, rs: seq<Record>, limit: nat, states: seq<Engine>, acts: seq<Action>)
    requires MemoryRun(c, rs, states, acts)
    requires limit > 0 && c.scan == MemoryScan(rs, limit) && states[0].job.spec.batchSize == limit
    ensures IsRun(c, states, acts)
  {
    forall i | 0 <= i < |acts|
      ensures Enabled(c, states[i], acts[i]) && Step(c, states[i], acts[i]) == states[i + 1]
    {
      MemoryRunReadable(c, rs, limit, states, acts, i);
      MemoryStepEnabled(c, rs, limit, states[i], acts[i], states[i + 1]);
    }
  }

  /**
   A transfer from one memory database to another, with the pages DB.Read returns at
   the job's own batch size: whenever the job is succeeded, the destination is its
   old table overridden by the source table, no more, no less.
   */
  lemma MemoryTransfer(source: map<string, Record>, rs: seq<Record>, limit: nat, destination: map<string, Record>,
                       states: seq<Engine>, acts: seq<Action>, k: nat)
    requires Keyed(source) && Keyed(destination) && Listing(source, rs) && |states| > 0
    requires limit > 0 && states[0].job.spec.batchSize == limit
    requires MemoryRun(Config(MemoryScan(rs, limit), destination), rs, states, acts)
    requires k < |states| && states[k].job.state == Succeeded
    ensures states[k].world.sink == destination + source
  {
    var c := Config(MemoryScan(rs, limit), destination);
    MemoryScanValid(source, rs, limit);
    MemoryRunIsRun(c, rs, limit, states, acts);
    SucceededDelivers(c, states, acts, k);
    MemoryCovers(rs, limit);
    DeliveredIsOverride(c, source, rs, states[k].world.sink);
  }

  // ---- the destination, too, is such a database ----

  /** The step is the outcome of a sink write. */
  predicate IsWrite(s: Engine, a: Action) {
    a.Exec? && a.who < |s.execs| && s.execs[a.who].Call? && s.execs[a.who].op.Writing?
  }

  /** The sink after DB.Upsert of the page, canceled after until records or acknowledged after all. */
  function Upserted(s: Engine, a: Action, until: nat): map<string, Record>
    requires IsWrite(s, a)
  {
    var rs := s.execs[a.who].op.page.records;
    Put(s.world.sink, rs[..Min(until, |rs|)])
  }

  /** The write returns nil exactly when every record was written, and leaves what DB.Upsert leaves. */
  predicate Upserts(c: Config, s: Engine, a: Action, s': Engine, until: nat)
    requires IsWrite(s, a)
  {
    && (if until >= |s.execs[a.who].op.page.records| then a.answer.Acked? else a.answer.Failure?)
    && s' == Executed(c, s, a.who, a.answer).(world := Executed(c, s, a.who, a.answer).world.(sink := Upserted(s, a, until)))
  }

  /** One step of an engine between two such databases, with no writer beside it. */
  ghost predicate DBStep(c: Config, rs: seq<Record>, s: Engine, a: Action, s': Engine) {
    if IsWrite(s, a) then exists until: nat :: Upserts(c, s, a, s', until)
    else !a.Landing? && MemoryStep(c, rs, s, a, s')
  }

  ghost predicate DBRun(c: Config, rs: seq<Record>, states: seq<Engine>, acts: seq<Action>) {
    && |states| == |acts| + 1 && NewRun(c, states[0])
    && forall i :: 0 <= i < |acts| ==> DBStep(c, rs, states[i], acts[i], states[i + 1])
  }

  /** An acknowledged Upsert is the engine's acknowledgement. */
  lemma AckedUpsert(c: Config, s: Engine, a: Action, s': Engine, until: nat)
    requires IsWrite(s, a) && Upserts(c, s, a, s', until) && until >= |s.execs[a.who].op.page.records|
    ensures Enabled(c, s, a) && s' == Step(c, s, a)
  {
    var rs := s.execs[a.who].op.page.records;
    assert rs[..|rs|] == rs;
  }

  /** A canceled Upsert is a part of its page that lands, and then the engine's failure. */
  lemma CanceledUpsert(c: Config, s: Engine, a: Action, s': Engine, until: nat) returns (mid: Engine)
    requires Safe(c, s) && IsWrite(s, a) && Upserts(c, s, a, s', until) && until < |s.execs[a.who].op.page.records|
    ensures var pc := s.execs[a.who]; var land := Landing(c.scan.pos(pc.cur.cursor), pc.op.page.records[..until]);
      && Enabled(c, s, land) && mid == Step(c, s, land) && Enabled(c, mid, a) && s' == Step(c, mid, a)
  {
    var pc := s.execs[a.who];
    var part := pc.op.page.records[..until];
    assert SafePC(c, s.world, pc);
    assert forall r :: r in part ==> r in pc.op.page.records;
    mid := Step(c, s, Landing(c.scan.pos(pc.cur.cursor), part));
  }

  /** What holds along such a run: it is reached by the engine machine, safely, with readable cursors. */
  ghost predicate Follows(c: Config, n: nat, limit: nat, s0: Engine, s: Engine) {
    Reaches(c, s0, s) && Safe(c, s) && Readable(n, limit, s)
  }

  lemma FollowStep(c: Config, n: nat, limit: nat, s0: Engine, s: Engine, a: Action)
    requires Follows(c, n, limit, s0, s) && Enabled(c, s, a)
    requires IsRead(s, a) && a.answer.Got? ==> GoodNext(n, limit, a.answer.page)
    ensures Follows(c, n, limit, s0, Step(c, s, a))
  {
    Hop(c, s0, s, a);
    StepSafe(c, s, a);
    StepReadable(c, n, limit, s, a);
  }

  lemma DBStepFollows(c: Config, rs: seq<Record>, limit: nat, s0: Engine, s: Engine, a: Action, s': Engine)
    requires Follows(c, |rs|, limit, s0, s) && c.scan == MemoryScan(rs, limit) && DBStep(c, rs, s, a, s')
    ensures Follows(c, |rs|, limit, s0, s')
  {
    if IsWrite(s, a) {
      var until: nat :| Upserts(c, s, a, s', until);
      if until >= |s.execs[a.who].op.page.records| {
        AckedUpsert(c, s, a, s', until);
        FollowStep(c, |rs|, limit, s0, s, a);
      } else {
        var mid := CanceledUpsert(c, s, a, s', until);
        FollowStep(c, |rs|, limit, s0, s, Landing(c.scan.pos(s.execs[a.who].cur.cursor), s.execs[a.who].op.page.records[..until]));
        FollowStep(c, |rs|, limit, s0, mid, a);
      }
    } else {
      MemoryStepEnabled(c, rs, limit, s, a, s');
      FollowStep(c, |rs|, limit, s0, s, a);
    }
  }

  lemma {:induction false} DBRunFollows(c: Config, rs: seq<Record>, limit: nat, states: seq<Engine>, acts: seq<Action>, k: nat)
    requires DBRun(c, rs, states, acts) && k < |states| && ValidScan(c.scan)
    requires limit > 0 && c.scan == MemoryScan(rs, limit) && states[0].job.spec.batchSize == limit
    ensures Follows(c, |rs|, limit, states[0], states[k])
  {
    if k == 0 {
      ReachesSelf(c, states[0]);
      InitSafe(c, states[0]);
      StartAligned(|rs|, limit);
    } else {
      DBRunFollows(c, rs, limit, states, acts, k - 1);
      DBStepFollows(c, rs, limit, states[0], states[k - 1], acts[k - 1], states[k]);
    }
  }

  /**
   Both ends concrete: an engine run whose reads are DB.Read's pages of one database
   and whose writes are DB.Upsert's outcomes on another, canceled anywhere. Whenever
   the job is succeeded, the other is its old table overridden by the first.
   */
  lemma DatabaseTransfer(source: map<string, Record>, rs: seq<Record>, limit: nat, destination: map<string, Record>,
                         states: seq<Engine>, acts: seq<Action>, k: nat)
    requires Keyed(source) && Keyed(destination) && Listing(source, rs) && |states| > 0
    requires limit > 0 && states[0].job.spec.batchSize == limit
    requires DBRun(Config(MemoryScan(rs, limit), destination), rs, states, acts)
    requires k < |states| && states[k].job.state == Succeeded
    ensures states[k].world.sink == destination + source
  {
    var c := Config(MemoryScan(rs, limit), destination);
    MemoryScanValid(source, rs, limit);
    DBRunFollows(c, rs, limit, states, acts, k);
    var ss, sa :| IsRun(c, ss, sa) && ss[0] == states[0] && ss[|sa|] == states[k];
    SucceededDelivers(c, ss, sa, |sa|);
    MemoryCovers(rs, limit);
    DeliveredIsOverride(c, source, rs, states[k].world.sink);
  }
}
