/**
 The Redis scan (connector/additional_native.go, Read): SCAN batches of any size
 cut into bounded pages, with the rest of a batch carried in the cursor.
 */
module Redis {
  import opened Basics
  import opened Records
  import opened Base64

  /** redisPosition: the SCAN cursor and the keys of its last batch that are still to be read. */
  datatype Position = Position(scan: nat, pending: seq<string>)

  datatype Batch = Batch(keys: seq<string>, next: nat)

  /**
   The server and the connector's fixed settings: SCAN by cursor, the HASH under a
   key when it holds a readable vector, and the JSON text of a position.
   */
  datatype Server = Server(prefix: string, scan: nat -> Batch, hash: string -> Option<(seq<Float>, map<string, Json>)>,
                           text: Position -> seq<Byte>, parse: seq<Byte> -> Option<Position>)

  /** JSON encoding can be undone. */
  ghost predicate GoodText(s: Server) {
    forall p :: s.text(p) != [] && s.parse(s.text(p)) == Some(p)
  }

  function Locate(s: Server, cursor: string): Option<Position> {
    if cursor == "" then Some(Position(0, []))
    else
      match DecodeCursor(cursor)
      case None => None
      case Some(text) => s.parse(text)
  }

  /** The position once a batch is at hand. */
  function Filled(s: Server, p: Position): Position {
    if p.pending == [] then Position(s.scan(p.scan).next, s.scan(p.scan).keys) else p
  }

  predicate Readable(s: Server, key: string) {
    s.prefix <= key && s.hash(key).Some?
  }

  function RecordOf(s: Server, key: string): Record
    requires Readable(s, key)
  {
    Record(key[|s.prefix|..], s.hash(key).value.0, s.hash(key).value.1)
  }

  /** The records of exactly these keys, each once. */
  predicate RecordsOf(s: Server, keys: seq<string>, rs: seq<Record>) {
    && DistinctIds(rs)
    && (forall i :: 0 <= i < |keys| ==> Readable(s, keys[i]) && RecordOf(s, keys[i]) in rs)
    && (forall r :: r in rs ==> s.prefix + r.id in keys)
  }

  /** What a successful read returns at a position. */
  predicate PageAt(s: Server, p: Position, limit: nat, page: Page) {
    var q := Filled(s, p);
    var n := Min(limit, |q.pending|);
    && RecordsOf(s, q.pending[..n], page.records) && |page.records| <= n
    && page.next != "" && Locate(s, page.next) == Some(Position(q.scan, q.pending[n..]))
    && (page.done <==> q.scan == 0 && q.pending[n..] == [])
  }

  /** Records hold what the server has under their keys. */
  lemma HashesOf(s: Server, keys: seq<string>, rs: seq<Record>)
    requires RecordsOf(s, keys, rs)
    ensures forall r :: r in rs ==> s.hash(s.prefix + r.id) == Some((r.values, r.metadata))
  {
    forall r | r in rs
      ensures s.hash(s.prefix + r.id) == Some((r.values, r.metadata))
    {
      var i :| 0 <= i < |keys| && keys[i] == s.prefix + r.id;
      var k := RecordOf(s, keys[i]);
      assert k.id == r.id;
      var a :| 0 <= a < |rs| && rs[a] == r;
      var b :| 0 <= b < |rs| && rs[b] == k;
    }
  }

  predicate TooLong(s: Server, p: Position, limit: nat) {
    var q := Filled(s, p);
    |EncodeCursor(s.text(Position(q.scan, q.pending[Min(limit, |q.pending|)..])))| > CURSOR_LIMIT
  }

  predicate AllReadable(s: Server, keys: seq<string>) {
    forall i :: 0 <= i < |keys| ==> Readable(s, keys[i])
  }

  /** The keys a read at a position looks up. */
  function Now(s: Server, p: Position, limit: nat): seq<string> {
    Filled(s, p).pending[..Min(limit, |Filled(s, p).pending|)]
  }

  /** The loop of Read over the keys of one page. */
  method Fetch(s: Server, keys: seq<string>) returns (records: Option<seq<Record>>)
    ensures records.Some? <==> AllReadable(s, keys)
    ensures records.Some? ==> RecordsOf(s, keys, records.value) && |records.value| <= |keys|
  {
    var read: seq<Record> := [];
    var seen: set<string> := {};
    var i := 0;
    while i < |keys|
      invariant i <= |keys| && |read| <= i && DistinctIds(read)
      invariant forall k :: 0 <= k < i ==> Readable(s, keys[k]) && RecordOf(s, keys[k]) in read
      invariant forall r :: r in read ==> s.prefix + r.id in seen
      invariant forall key :: key in seen <==> key in keys[..i]
    {
      var key := keys[i];
      if !(s.prefix <= key) {
        return None;
      }
      assert keys[..i + 1] == keys[..i] + [key];
      if key in seen {
        var k :| 0 <= k < i && keys[k] == key;
      } else {
        seen := seen + {key};
        if s.hash(key).None? {
          return None;
        }
        var r := RecordOf(s, key);
        assert s.prefix + r.id == key;
        assert forall j :: 0 <= j < |read| ==> read[j] in read;
        read := read + [r];
      }
      i := i + 1;
    }
    assert keys[..i] == keys;
    return Some(read);
  }

  /** The position carries keys of the batch at hand, and the SCAN cursor behind it. */
  predicate Carries(s: Server, p: Position, rest: Position) {
    if p.pending == [] then rest.scan == s.scan(p.scan).next && |rest.pending| <= |s.scan(p.scan).keys|
    else rest.scan == p.scan && |rest.pending| <= |p.pending|
  }

  /** Read fails only on a bad limit or cursor, on a key it cannot read, or on an oversized cursor. */
  method Read(s: Server, cursor: string, limit: int) returns (page: Option<Page>)
    requires GoodText(s)
    ensures page.Some? ==> limit >= 1 && Locate(s, cursor).Some? && PageAt(s, Locate(s, cursor).value, limit, page.value)
    ensures page.None? && limit >= 1 && Locate(s, cursor).Some?
      ==> !AllReadable(s, Now(s, Locate(s, cursor).value, limit)) || TooLong(s, Locate(s, cursor).value, limit)
    ensures page.Some? ==> forall r :: r in page.value.records ==> s.hash(s.prefix + r.id) == Some((r.values, r.metadata))
    ensures page.None? && limit >= 1 && Locate(s, cursor).Some? ==>
      || (exists key :: key in Now(s, Locate(s, cursor).value, limit) && (!(s.prefix <= key) || s.hash(key) == None))
      || exists rest :: |EncodeCursor(s.text(rest))| > 1048576 && Carries(s, Locate(s, cursor).value, rest)
  {
    if limit < 1 {
      return None;
    }
    var located := Locate(s, cursor);
    if located.None? {
      return None;
    }
    var p := located.value;
    if |p.pending| == 0 {
      var batch := s.scan(p.scan);
      p := Position(batch.next, batch.keys);
    }
    assert p == Filled(s, located.value);
    var n := Min(limit, |p.pending|);
    var records := Fetch(s, p.pending[..n]);
    if records.None? {
      ghost var now := Now(s, located.value, limit);
      ghost var i :| 0 <= i < |now| && !Readable(s, now[i]);
      assert now[i] in now && (!(s.prefix <= now[i]) || s.hash(now[i]) == None);
      return None;
    }
    ghost var keys := p.pending[..n];
    p := p.(pending := p.pending[n..]);
    var next := EncodeCursor(s.text(p));
    if |next| > CURSOR_LIMIT {
      assert Carries(s, located.value, p);
      return None;
    }
    NextLocates(s, p);
    HashesOf(s, keys, records.value);
    return Some(Page(records.value, next, p.scan == 0 && |p.pending| == 0));
  }

  lemma NextLocates(s: Server, p: Position)
    requires GoodText(s) && |EncodeCursor(s.text(p))| <= CURSOR_LIMIT
    ensures Locate(s, EncodeCursor(s.text(p))) == Some(p) && EncodeCursor(s.text(p)) != ""
  {
    CursorAccepted(s.text(p));
  }

  // ---- the whole scan ----

  /** The SCAN guarantee: from this cursor, n calls lead back to 0 and not earlier. */
  predicate Chain(s: Server, cursor: nat, n: nat)
    decreases n
  {
    n > 0 && if n == 1 then s.scan(cursor).next == 0 else s.scan(cursor).next != 0 && Chain(s, s.scan(cursor).next, n - 1)
  }

  /** n more SCAN calls are due at this position. */
  predicate Due(s: Server, p: Position, n: nat) {
    if p.pending != [] && p.scan == 0 then n == 0 else Chain(s, p.scan, n)
  }

  /** Every key the server still has to return, or has returned and the scan not emitted. */
  function Ahead(s: Server, p: Position, n: nat): seq<string>
    requires Due(s, p, n)
    decreases n
  {
    if n == 0 then p.pending
    else
      var batch := s.scan(p.scan);
      p.pending + if n == 1 then batch.keys else batch.keys + Ahead(s, Position(batch.next, []), n - 1)
  }

  predicate IsScan(s: Server, cursor: string, limit: nat, pages: seq<Page>)
    decreases |pages|
  {
    && pages != [] && Locate(s, cursor).Some? && PageAt(s, Locate(s, cursor).value, limit, pages[0])
    && if pages[0].done then |pages| == 1 else IsScan(s, pages[0].next, limit, pages[1..])
  }

  predicate Emits(s: Server, pages: seq<Page>, key: string) {
    exists i, j :: 0 <= i < |pages| && 0 <= j < |pages[i].records| && s.prefix + pages[i].records[j].id == key
  }

  /** A read that is not the last uses up a SCAN call or part of the batch. */
  lemma ReadAdvances(s: Server, p: Position, n: nat, limit: nat, page: Page) returns (m: nat)
    requires limit > 0 && Due(s, p, n) && PageAt(s, p, limit, page) && !page.done
    ensures var q := Locate(s, page.next).value;
      Due(s, q, m) && (m < n || (m == n && |q.pending| < |p.pending|))
    ensures forall key :: key in Ahead(s, p, n) <==> (key in Ahead(s, Locate(s, page.next).value, m) || key in Now(s, p, limit))
  {
    var f := Filled(s, p);
    var k := Min(limit, |f.pending|);
    var q := Locate(s, page.next).value;
    assert f.pending == f.pending[..k] + q.pending;
    m := if p.pending == [] then n - 1 else n;
    if p.pending == [] {
      assert Ahead(s, p, n) == f.pending + if n == 1 then [] else Ahead(s, Position(f.scan, []), n - 1);
      if n > 1 {
        AheadSplits(s, q, n - 1);
      }
    } else if n > 0 {
      AheadSplits(s, q, n);
      AheadSplits(s, p, n);
    }
  }

  lemma AheadSplits(s: Server, p: Position, n: nat)
    requires n > 0 && Chain(s, p.scan, n) && (p.scan != 0 || p.pending == [])
    ensures Ahead(s, p, n) == p.pending + Ahead(s, Position(p.scan, []), n)
  {
  }

  /** A cursor is never its own successor, so a scan that goes on never repeats a cursor at once. */
  lemma {:induction false} NoSelfLoop(s: Server, cursor: nat, n: nat)
    requires Chain(s, cursor, n) && s.scan(cursor).next != 0
    ensures s.scan(cursor).next != cursor
    decreases n
  {
    if s.scan(cursor).next == cursor {
      NoSelfLoop(s, cursor, n - 1);
    }
  }

  lemma CursorAdvances(s: Server, cursor: string, n: nat, limit: nat, page: Page)
    requires limit > 0 && Locate(s, cursor).Some? && Due(s, Locate(s, cursor).value, n)
    requires PageAt(s, Locate(s, cursor).value, limit, page) && !page.done
    ensures page.next != cursor
  {
    var p := Locate(s, cursor).value;
    var f := Filled(s, p);
    if p.pending == [] && f.scan != 0 {
      NoSelfLoop(s, p.scan, n);
    }
  }

  /** A scan from any cursor emits exactly the keys that were ahead of it. */
  lemma {:induction false} ScanLosesNothing(s: Server, cursor: string, n: nat, limit: nat, pages: seq<Page>)
    requires limit > 0 && IsScan(s, cursor, limit, pages) && Due(s, Locate(s, cursor).value, n)
    ensures forall key :: Emits(s, pages, key) <==> key in Ahead(s, Locate(s, cursor).value, n)
    decreases |pages|
  {
    var p := Locate(s, cursor).value;
    var f := Filled(s, p);
    var now := Now(s, p, limit);
    FirstPage(s, now, pages);
    if pages[0].done {
      assert now == f.pending;
      assert Ahead(s, p, n) == f.pending;
    } else {
      var m := ReadAdvances(s, p, n, limit, pages[0]);
      ScanLosesNothing(s, pages[0].next, m, limit, pages[1..]);
    }
  }

  /** The first page emits its keys, the other pages theirs. */
  lemma FirstPage(s: Server, keys: seq<string>, pages: seq<Page>)
    requires pages != [] && RecordsOf(s, keys, pages[0].records)
    ensures forall key :: Emits(s, pages, key) <==> key in keys || Emits(s, pages[1..], key)
  {
    forall key
      ensures Emits(s, pages, key) <==> key in keys || Emits(s, pages[1..], key)
    {
      if key in keys {
        var i :| 0 <= i < |keys| && keys[i] == key;
        var j :| 0 <= j < |pages[0].records| && pages[0].records[j] == RecordOf(s, key);
        assert s.prefix + pages[0].records[j].id == key;
      }
      if Emits(s, pages[1..], key) {
        var i, j :| 0 <= i < |pages| - 1 && 0 <= j < |pages[1..][i].records| && s.prefix + pages[1..][i].records[j].id == key;
        assert pages[i + 1] == pages[1..][i];
      }
      if Emits(s, pages, key) {
        var i, j :| 0 <= i < |pages| && 0 <= j < |pages[i].records| && s.prefix + pages[i].records[j].id == key;
        if i > 0 {
          assert pages[1..][i - 1] == pages[i];
        } else {
          assert pages[0].records[j] in pages[0].records;
        }
      }
    }
  }

  /** Pages that are not the last, read one after the other from a cursor up to the next one. */
  predicate Leads(s: Server, cursor: string, limit: nat, pages: seq<Page>, next: string)
    decreases |pages|
  {
    if pages == [] then cursor == next
    else
      && Locate(s, cursor).Some? && PageAt(s, Locate(s, cursor).value, limit, pages[0]) && !pages[0].done
      && Leads(s, pages[0].next, limit, pages[1..], next)
  }

  lemma {:induction false} LeadsOn(s: Server, cursor: string, limit: nat, pages: seq<Page>, next: string, page: Page)
    requires Leads(s, cursor, limit, pages, next)
    requires Locate(s, next).Some? && PageAt(s, Locate(s, next).value, limit, page)
    ensures page.done ==> IsScan(s, cursor, limit, pages + [page])
    ensures !page.done ==> Leads(s, cursor, limit, pages + [page], page.next)
    decreases |pages|
  {
    var more := pages + [page];
    if pages == [] {
      assert more == [page] && more[1..] == [];
    } else {
      LeadsOn(s, pages[0].next, limit, pages[1..], next, page);
      assert more[1..] == pages[1..] + [page];
    }
  }

  /** Following Next ends, with every key of every SCAN batch emitted, or at a page that cannot be read. */
  method ReadAll(s: Server, limit: nat, ghost n: nat) returns (pages: Option<seq<Page>>)
    requires GoodText(s) && limit > 0 && Chain(s, 0, n)
    ensures pages.Some? ==> IsScan(s, "", limit, pages.value)
    ensures pages.Some? ==> forall key :: Emits(s, pages.value, key) <==> key in Ahead(s, Position(0, []), n)
  {
    var read: seq<Page> := [];
    var cursor := "";
    ghost var m := n;
    while true
      invariant Locate(s, cursor).Some? && Due(s, Locate(s, cursor).value, m) && Leads(s, "", limit, read, cursor)
      decreases m, |Locate(s, cursor).value.pending|
    {
      var page := Read(s, cursor, limit);
      if page.None? {
        return None;
      }
      LeadsOn(s, "", limit, read, cursor, page.value);
      read := read + [page.value];
      if page.value.done {
        ScanLosesNothing(s, "", n, limit, read);
        return Some(read);
      }
      m := ReadAdvances(s, Locate(s, cursor).value, m, limit, page.value);
      cursor := page.value.next;
    }
  }

  lemma SpliceStep(s: Server, cursor: string, limit: nat, page: Page, rest: seq<Page>)
    requires Locate(s, cursor).Some? && PageAt(s, Locate(s, cursor).value, limit, page) && !page.done
    requires IsScan(s, page.next, limit, rest)
    ensures IsScan(s, cursor, limit, [page] + rest)
  {
    assert ([page] + rest)[1..] == rest;
  }

  /** A client that resumes from any cursor of a scan completes a scan of the same source. */
  lemma {:induction false} ResumeCompletes(s: Server, cursor: string, limit: nat, pages: seq<Page>, k: nat, again: seq<Page>)
    requires IsScan(s, cursor, limit, pages) && k + 1 < |pages| && IsScan(s, pages[k].next, limit, again)
    ensures IsScan(s, cursor, limit, pages[..k + 1] + again)
    decreases |pages|
  {
    if k == 0 {
      SpliceStep(s, cursor, limit, pages[0], again);
      assert pages[..1] + again == [pages[0]] + again;
    } else {
      var rest := pages[1..][..k] + again;
      ResumeCompletes(s, pages[0].next, limit, pages[1..], k - 1, again);
      SpliceStep(s, cursor, limit, pages[0], rest);
      assert pages[..k + 1] + again == [pages[0]] + rest;
    }
  }
}
