/**
 The append-only journal (control/store.go): one line per entry, hash-chained,
 replayed at startup, cut back to its last complete line after a crash.
 */
module Journal {
  import opened Basics
  import opened Jobs

  /** What an audit event says beyond the job row written with it. */
  datatype Event = Event(sequence: int, jobID: string, kind: string, records: int, digest: string,
                         previousHash: string, hash: string)

  datatype Entry = Entry(event: Event, job: Job)

  /** The JSON encoding of entries, its decoder, and the digest of an entry. */
  datatype Codec = Codec(encode: Entry -> string, decode: string -> Option<Entry>, digest: Entry -> string)

  /** JSON text has no raw newline and decodes to what was encoded; SHA-256 does not collide. */
  ghost predicate GoodCodec(c: Codec) {
    && (forall e :: '\n' !in c.encode(e) && c.decode(c.encode(e)) == Some(e))
    && (forall e :: c.digest(e) != "")
    && (forall e, f :: c.digest(e) == c.digest(f) ==> e == f)
  }

  /** entryHash: the digest of the entry with its hash field empty. */
  function EntryHash(c: Codec, e: Entry): string {
    c.digest(e.(event := e.event.(hash := "")))
  }

  /** The in-memory state that replay rebuilds. */
  datatype Table = Table(jobs: map<string, Job>, sequence: int, hash: string)

  const EMPTY := Table(map[], 0, "")

  predicate Follows(c: Codec, t: Table, e: Entry) {
    && e.event.sequence == t.sequence + 1
    && e.event.previousHash == t.hash
    && e.event.hash == EntryHash(c, e)
    && e.event.jobID == e.job.id
  }

  function Applied(t: Table, e: Entry): Table {
    Table(t.jobs[e.job.id := e.job], e.event.sequence, e.event.hash)
  }

  /** The entries form one chain that starts at table t. */
  predicate Chain(c: Codec, t: Table, es: seq<Entry>)
    decreases |es|
  {
    if es == [] then true else Follows(c, t, es[0]) && Chain(c, Applied(t, es[0]), es[1..])
  }

  function Folded(t: Table, es: seq<Entry>): Table
    decreases |es|
  {
    if es == [] then t else Folded(Applied(t, es[0]), es[1..])
  }

  function Line(c: Codec, e: Entry): string {
    c.encode(e) + "\n"
  }

  function Text(c: Codec, es: seq<Entry>): string {
    if es == [] then "" else Line(c, es[0]) + Text(c, es[1..])
  }

  /** Where the first newline of a text is, or its length. */
  function Newline(text: string): (n: nat)
    ensures n <= |text|
    ensures n < |text| ==> text[n] == '\n'
    ensures '\n' !in text[..n]
    ensures n == |text| ==> '\n' !in text
  {
    if text == "" then 0
    else if text[0] == '\n' then 0
    else
      var n := 1 + Newline(text[1..]);
      assert text[..n] == [text[0]] + text[1..][..n - 1];
      n
  }

  /** What replaying a file yields: an integrity failure, or the table and the length of its complete lines. */
  datatype Replay = Corrupt | Replayed(table: Table, length: nat)

  function Replaying(c: Codec, t: Table, file: string): Replay
    decreases |file|
  {
    var n := Newline(file);
    if n == |file| then Replayed(t, 0)
    else
      match c.decode(file[..n])
      case None => Corrupt
      case Some(e) =>
        if !Follows(c, t, e) then Corrupt
        else
          match Replaying(c, Applied(t, e), file[n + 1..])
          case Corrupt => Corrupt
          case Replayed(table, length) => Replayed(table, n + 1 + length)
  }

  /** The result of replaying, told for a file that continues after a prefix. */
  function Shifted(offset: nat, r: Replay): Replay {
    match r
    case Corrupt => Corrupt
    case Replayed(table, length) => Replayed(table, offset + length)
  }

  /** The entries on the complete lines of a file. */
  function Decoded(c: Codec, file: string): seq<Entry>
    decreases |file|
  {
    var n := Newline(file);
    if n == |file| then []
    else
      match c.decode(file[..n])
      case None => []
      case Some(e) => [e] + Decoded(c, file[n + 1..])
  }

  // ---- printing and replaying ----

  lemma NewlineOf(line: string, rest: string)
    requires '\n' !in line
    ensures Newline(line + "\n" + rest) == |line|
  {
    var text := line + "\n" + rest;
    assert text[|line|] == '\n';
    assert forall i :: 0 <= i < |line| ==> text[i] == line[i];
  }

  lemma ReplayFront(c: Codec, t: Table, line: string, rest: string)
    requires '\n' !in line && c.decode(line).Some? && Follows(c, t, c.decode(line).value)
    ensures Replaying(c, t, line + "\n" + rest) == Shifted(|line| + 1, Replaying(c, Applied(t, c.decode(line).value), rest))
  {
    var file := line + "\n" + rest;
    NewlineOf(line, rest);
    assert file[..|line|] == line && file[|line| + 1..] == rest;
  }

  lemma DecodedFront(c: Codec, line: string, rest: string)
    requires '\n' !in line && c.decode(line).Some?
    ensures Decoded(c, line + "\n" + rest) == [c.decode(line).value] + Decoded(c, rest)
  {
    var file := line + "\n" + rest;
    NewlineOf(line, rest);
    assert file[..|line|] == line && file[|line| + 1..] == rest;
  }

  /** Printing a chain and replaying it, with any unfinished line after it, gives the chain back. */
  lemma {:induction false} ReplayText(c: Codec, t: Table, es: seq<Entry>, tail: string)
    requires GoodCodec(c) && Chain(c, t, es) && '\n' !in tail
    ensures Replaying(c, t, Text(c, es) + tail) == Replayed(Folded(t, es), |Text(c, es)|)
    ensures Decoded(c, Text(c, es) + tail) == es
    decreases |es|
  {
    if es == [] {
      assert Text(c, es) + tail == tail;
    } else {
      var line, rest := c.encode(es[0]), Text(c, es[1..]) + tail;
      assert Text(c, es) + tail == line + "\n" + rest;
      ReplayText(c, Applied(t, es[0]), es[1..], tail);
      ReplayFront(c, t, line, rest);
      DecodedFront(c, line, rest);
    }
  }

  lemma {:induction false} ChainAppend(c: Codec, t: Table, es: seq<Entry>, e: Entry)
    requires Chain(c, t, es) && Follows(c, Folded(t, es), e)
    ensures Chain(c, t, es + [e]) && Folded(t, es + [e]) == Applied(Folded(t, es), e)
    decreases |es|
  {
    if es == [] {
      assert Chain(c, Applied(t, e), []);
      assert (es + [e])[1..] == [];
    } else {
      ChainAppend(c, Applied(t, es[0]), es[1..], e);
      assert (es + [e])[1..] == es[1..] + [e];
    }
  }

  lemma {:induction false} TextAppend(c: Codec, es: seq<Entry>, e: Entry)
    ensures Text(c, es + [e]) == Text(c, es) + Line(c, e)
  {
    if es == [] {
      assert (es + [e])[1..] == [];
    } else {
      assert (es + [e])[1..] == es[1..] + [e];
      TextAppend(c, es[1..], e);
    }
  }

  /**
   Crash refinement. When a crash leaves only the first cut characters of the line
   being appended, reopening the journal yields the acknowledged table, or that
   table with the one entry in flight when its newline made it to disk; and the
   file is cut back to exactly the entries that count.
   */
  lemma CrashRefinement(c: Codec, es: seq<Entry>, e: Entry, cut: nat)
    requires GoodCodec(c) && Chain(c, EMPTY, es) && Follows(c, Folded(EMPTY, es), e) && cut <= |Line(c, e)|
    ensures var kept := if cut == |Line(c, e)| then es + [e] else es;
      && Chain(c, EMPTY, kept)
      && Replaying(c, EMPTY, Text(c, es) + Line(c, e)[..cut]) == Replayed(Folded(EMPTY, kept), |Text(c, kept)|)
      && Text(c, kept) <= Text(c, es) + Line(c, e)[..cut]
  {
    ChainAppend(c, EMPTY, es, e);
    TextAppend(c, es, e);
    if cut == |Line(c, e)| {
      ReplayText(c, EMPTY, es + [e], "");
      assert Text(c, es) + Line(c, e)[..cut] == Text(c, es + [e]) + "";
    } else {
      assert Line(c, e)[..cut] == c.encode(e)[..cut];
      ReplayText(c, EMPTY, es, Line(c, e)[..cut]);
    }
  }

  /** Replaying a file that ends in a complete line, and then more. */
  lemma {:induction false} ReplayMore(c: Codec, t: Table, file: string, more: string)
    requires Replaying(c, t, file).Replayed? && Replaying(c, t, file).length == |file|
    ensures Replaying(c, t, file + more) == Shifted(|file|, Replaying(c, Replaying(c, t, file).table, more))
    decreases |file|
  {
    var n := Newline(file);
    if n == |file| {
      assert file == "" && file + more == more;
    } else {
      var line, rest := file[..n], file[n + 1..];
      assert file + more == line + "\n" + (rest + more);
      ReplayFront(c, t, line, rest + more);
      ReplayMore(c, Applied(t, c.decode(line).value), rest, more);
    }
  }

  lemma {:induction false} DecodedMore(c: Codec, t: Table, file: string, more: string)
    requires Replaying(c, t, file).Replayed? && Replaying(c, t, file).length == |file|
    ensures Decoded(c, file + more) == Decoded(c, file) + Decoded(c, more)
    decreases |file|
  {
    var n := Newline(file);
    if n == |file| {
      assert file == "" && file + more == more;
    } else {
      var line, rest := file[..n], file[n + 1..];
      assert file + more == line + "\n" + (rest + more);
      DecodedFront(c, line, rest + more);
      DecodedMore(c, Applied(t, c.decode(line).value), rest, more);
    }
  }

  lemma DecodedLine(c: Codec, e: Entry)
    requires GoodCodec(c)
    ensures Decoded(c, Line(c, e)) == [e]
  {
    DecodedFront(c, c.encode(e), "");
    assert Line(c, e) == c.encode(e) + "\n" + "";
  }

  /** A complete line adds its entry to the journal and leaves the earlier ones alone. */
  lemma AppendedEntry(c: Codec, file: string, t: Table, e: Entry)
    requires GoodCodec(c) && Replaying(c, EMPTY, file) == Replayed(t, |file|)
    ensures Decoded(c, file + Line(c, e)) == Decoded(c, file) + [e]
  {
    DecodedMore(c, EMPTY, file, Line(c, e));
    DecodedLine(c, e);
  }

  lemma ReplayLine(c: Codec, t: Table, e: Entry)
    requires GoodCodec(c) && Follows(c, t, e)
    ensures Replaying(c, t, Line(c, e)) == Replayed(Applied(t, e), |Line(c, e)|)
  {
    assert Chain(c, Applied(t, e), []);
    ReplayText(c, t, [e], "");
    assert Line(c, e) == Text(c, [e]) + "";
    assert Folded(t, [e]) == Folded(Applied(t, e), []);
  }

  lemma ReplayPartOfLine(c: Codec, t: Table, e: Entry, cut: nat)
    requires GoodCodec(c) && cut < |Line(c, e)|
    ensures Replaying(c, t, Line(c, e)[..cut]) == Replayed(t, 0)
  {
    assert Line(c, e)[..cut] == c.encode(e)[..cut];
  }

  /** The same for any accepted journal, whatever JSON layout its lines have. */
  lemma AppendRefinement(c: Codec, file: string, t: Table, e: Entry, cut: nat)
    requires GoodCodec(c) && Replaying(c, EMPTY, file) == Replayed(t, |file|) && Follows(c, t, e) && cut <= |Line(c, e)|
    ensures Replaying(c, EMPTY, file + Line(c, e)[..cut]) ==
      if cut == |Line(c, e)| then Replayed(Applied(t, e), |file| + cut) else Replayed(t, |file|)
  {
    var part := Line(c, e)[..cut];
    if cut == |Line(c, e)| {
      assert part == Line(c, e);
      ReplayLine(c, t, e);
    } else {
      ReplayPartOfLine(c, t, e, cut);
    }
    ReplayMore(c, EMPTY, file, part);
  }

  // ---- the chain determines the history ----

  lemma {:induction false} SequenceNumbers(c: Codec, t: Table, es: seq<Entry>, i: nat)
    requires Chain(c, t, es) && i < |es|
    ensures es[i].event.sequence == t.sequence + i + 1
    ensures Folded(t, es).sequence == t.sequence + |es|
    decreases |es|
  {
    if |es| == 1 {
      assert Folded(t, es) == Folded(Applied(t, es[0]), es[1..]);
    } else {
      SequenceNumbers(c, Applied(t, es[0]), es[1..], if i == 0 then 0 else i - 1);
    }
  }

  lemma {:induction false} LastOf(c: Codec, t: Table, es: seq<Entry>)
    requires Chain(c, t, es) && es != []
    ensures var init, last := es[..|es| - 1], es[|es| - 1];
      Chain(c, t, init) && Follows(c, Folded(t, init), last) && Folded(t, es) == Applied(Folded(t, init), last)
    decreases |es|
  {
    if |es| > 1 {
      LastOf(c, Applied(t, es[0]), es[1..]);
      assert es[..|es| - 1][1..] == es[1..][..|es| - 2];
    } else {
      assert es[..0] == [];
      assert Folded(t, es) == Folded(Applied(t, es[0]), es[1..]);
    }
  }

  /** Two chains from the empty table with the same final hash are the same chain. */
  lemma {:induction false} HashDeterminesHistory(c: Codec, es: seq<Entry>, fs: seq<Entry>)
    requires GoodCodec(c) && Chain(c, EMPTY, es) && Chain(c, EMPTY, fs)
    requires Folded(EMPTY, es).hash == Folded(EMPTY, fs).hash
    ensures es == fs
    decreases |es|
  {
    if es != [] {
      LastOf(c, EMPTY, es);
    }
    if fs != [] {
      LastOf(c, EMPTY, fs);
    }
    if es != [] && fs != [] {
      var e, f := es[|es| - 1], fs[|fs| - 1];
      assert e.event.(hash := "") == f.event.(hash := "") && e == f;
      HashDeterminesHistory(c, es[..|es| - 1], fs[..|fs| - 1]);
      assert es == es[..|es| - 1] + [e] && fs == fs[..|fs| - 1] + [f];
    }
  }

  /** Every file that replay accepts holds exactly one chain of entries, one per complete line. */
  lemma {:induction false} AcceptedIsChain(c: Codec, t: Table, file: string)
    requires Replaying(c, t, file).Replayed?
    ensures Chain(c, t, Decoded(c, file)) && Folded(t, Decoded(c, file)) == Replaying(c, t, file).table
    decreases |file|
  {
    var n := Newline(file);
    if n < |file| {
      AcceptedIsChain(c, Applied(t, c.decode(file[..n]).value), file[n + 1..]);
    }
  }

  /** Two journals accepted by replay with the same final hash hold the same entries and so the same jobs. */
  lemma SameHashSameHistory(c: Codec, file: string, other: string)
    requires GoodCodec(c) && Replaying(c, EMPTY, file).Replayed? && Replaying(c, EMPTY, other).Replayed?
    requires Replaying(c, EMPTY, file).table.hash == Replaying(c, EMPTY, other).table.hash
    ensures Decoded(c, file) == Decoded(c, other)
    ensures Replaying(c, EMPTY, file).table == Replaying(c, EMPTY, other).table
  {
    AcceptedIsChain(c, EMPTY, file);
    AcceptedIsChain(c, EMPTY, other);
    HashDeterminesHistory(c, Decoded(c, file), Decoded(c, other));
  }

  /** Every complete line decodes. */
  predicate LineByLine(c: Codec, file: string)
    decreases |file|
  {
    var n := Newline(file);
    n < |file| ==> c.decode(file[..n]).Some? && LineByLine(c, file[n + 1..])
  }

  lemma {:induction false} ReplayedLines(c: Codec, t: Table, file: string)
    requires Replaying(c, t, file).Replayed?
    ensures LineByLine(c, file)
    decreases |file|
  {
    var n := Newline(file);
    if n < |file| {
      ReplayedLines(c, Applied(t, c.decode(file[..n]).value), file[n + 1..]);
    }
  }

  /** An entry links to what comes before it: the next number, the hash so far, its own hash over the rest of it, its own job. */
  predicate Link(c: Codec, sequence: int, hash: string, entry: Entry) {
    var e := entry.event;
    && e.sequence == sequence + 1 && e.previousHash == hash && e.jobID == entry.job.id
    && e.hash == c.digest(Entry(Event(e.sequence, e.jobID, e.kind, e.records, e.digest, e.previousHash, ""), entry.job))
  }

  predicate LinkAt(c: Codec, sequence: int, hash: string, es: seq<Entry>, i: nat)
    requires i < |es|
  {
    Link(c, sequence + i, if i == 0 then hash else es[i - 1].event.hash, es[i])
  }

  predicate LinkedFrom(c: Codec, sequence: int, hash: string, es: seq<Entry>) {
    forall i: nat :: i < |es| ==> LinkAt(c, sequence, hash, es, i)
  }

  /** Every entry links to the one before it, and the first to nothing. */
  predicate Linked(c: Codec, es: seq<Entry>) {
    LinkedFrom(c, 0, "", es)
  }

  lemma LinkedCons(c: Codec, t: Table, es: seq<Entry>)
    requires es != []
    ensures LinkedFrom(c, t.sequence, t.hash, es) <==>
      Follows(c, t, es[0]) && LinkedFrom(c, es[0].event.sequence, es[0].event.hash, es[1..])
  {
    var rest := es[1..];
    var e := es[0].event;
    assert es[0].(event := e.(hash := "")) == Entry(Event(e.sequence, e.jobID, e.kind, e.records, e.digest, e.previousHash, ""), es[0].job);
    assert Follows(c, t, es[0]) <==> Link(c, t.sequence, t.hash, es[0]);
    if LinkedFrom(c, t.sequence, t.hash, es) {
      assert LinkAt(c, t.sequence, t.hash, es, 0);
      forall i: nat | i < |rest|
        ensures LinkAt(c, e.sequence, e.hash, rest, i)
      {
        assert LinkAt(c, t.sequence, t.hash, es, i + 1);
      }
    }
    if Follows(c, t, es[0]) && LinkedFrom(c, e.sequence, e.hash, rest) {
      forall i: nat | i < |es|
        ensures LinkAt(c, t.sequence, t.hash, es, i)
      {
        if i > 0 {
          assert LinkAt(c, e.sequence, e.hash, rest, i - 1);
        }
      }
    }
  }

  lemma {:induction false} ChainLinked(c: Codec, t: Table, es: seq<Entry>)
    ensures Chain(c, t, es) <==> LinkedFrom(c, t.sequence, t.hash, es)
    decreases |es|
  {
    if es != [] {
      LinkedCons(c, t, es);
      ChainLinked(c, Applied(t, es[0]), es[1..]);
    }
  }

  lemma {:induction false} LinesReplay(c: Codec, t: Table, file: string)
    requires LineByLine(c, file) && Chain(c, t, Decoded(c, file))
    ensures Replaying(c, t, file).Replayed?
    decreases |file|
  {
    var n := Newline(file);
    if n < |file| {
      assert Decoded(c, file)[1..] == Decoded(c, file[n + 1..]);
      LinesReplay(c, Applied(t, c.decode(file[..n]).value), file[n + 1..]);
    }
  }

  /** Replay accepts a file exactly when each of its complete lines decodes and the entries are linked. */
  lemma AcceptedIff(c: Codec, file: string)
    ensures Replaying(c, EMPTY, file).Replayed? <==> LineByLine(c, file) && Linked(c, Decoded(c, file))
  {
    ChainLinked(c, EMPTY, Decoded(c, file));
    if Replaying(c, EMPTY, file).Replayed? {
      ReplayedLines(c, EMPTY, file);
      AcceptedIsChain(c, EMPTY, file);
    }
    if LineByLine(c, file) && Linked(c, Decoded(c, file)) {
      LinesReplay(c, EMPTY, file);
    }
  }

  /** The last entry of its job. */
  predicate LastFor(es: seq<Entry>, i: nat) {
    i < |es| && forall k :: i < k < |es| ==> es[k].job.id != es[i].job.id
  }

  predicate Unwritten(es: seq<Entry>, id: string) {
    forall k :: 0 <= k < |es| ==> es[k].job.id != id
  }

  lemma {:induction false} FoldedOther(t: Table, es: seq<Entry>, id: string)
    requires Unwritten(es, id)
    ensures (id in Folded(t, es).jobs <==> id in t.jobs) && (id in t.jobs ==> Folded(t, es).jobs[id] == t.jobs[id])
    decreases |es|
  {
    if es != [] {
      FoldedOther(Applied(t, es[0]), es[1..], id);
    }
  }

  lemma {:induction false} FoldedOne(t: Table, es: seq<Entry>, i: nat)
    requires LastFor(es, i)
    ensures es[i].job.id in Folded(t, es).jobs && Folded(t, es).jobs[es[i].job.id] == es[i].job
    decreases |es|
  {
    var rest, u := es[1..], Applied(t, es[0]);
    if i > 0 {
      assert rest[i - 1] == es[i] && LastFor(rest, i - 1);
      FoldedOne(u, rest, i - 1);
    } else {
      FoldedOther(u, rest, es[0].job.id);
    }
    assert Folded(t, es) == Folded(u, rest);
  }

  /** The table of an accepted journal holds the last row written for each job, and no other job. */
  lemma LastRowCounts(c: Codec, file: string)
    requires Replaying(c, EMPTY, file).Replayed?
    ensures var es, jobs := Decoded(c, file), Replaying(c, EMPTY, file).table.jobs;
      && (forall i: nat :: LastFor(es, i) ==> es[i].job.id in jobs && jobs[es[i].job.id] == es[i].job)
      && (forall id :: Unwritten(es, id) ==> id !in jobs)
  {
    var es, jobs := Decoded(c, file), Replaying(c, EMPTY, file).table.jobs;
    AcceptedIsChain(c, EMPTY, file);
    forall i: nat | LastFor(es, i)
      ensures es[i].job.id in jobs && jobs[es[i].job.id] == es[i].job
    {
      FoldedOne(EMPTY, es, i);
    }
    forall id | Unwritten(es, id)
      ensures id !in jobs
    {
      FoldedOther(EMPTY, es, id);
    }
  }

  // ---- reading the history of one job ----

  /** The events of one job after a sequence number. */
  function Filtered(es: seq<Entry>, id: string, after: int): seq<Event> {
    if es == [] then []
    else (if es[0].job.id == id && es[0].event.sequence > after then [es[0].event] else []) + Filtered(es[1..], id, after)
  }

  /** Which events those are. */
  lemma {:induction false} FilteredIff(es: seq<Entry>, id: string, after: int, event: Event)
    ensures event in Filtered(es, id, after) <==>
      exists i :: 0 <= i < |es| && es[i].event == event && es[i].job.id == id && es[i].event.sequence > after
  {
    if es != [] {
      var rest := es[1..];
      FilteredIff(rest, id, after, event);
      assert forall i :: 0 <= i < |rest| ==> rest[i] == es[i + 1];
      if i :| 0 <= i < |es| && es[i].event == event && es[i].job.id == id && es[i].event.sequence > after {
        assert i > 0 ==> rest[i - 1] == es[i];
      }
    }
  }

  /** Sequence numbers go up along the journal. */
  predicate Rising(es: seq<Entry>) {
    forall i, j :: 0 <= i < j < |es| ==> es[i].event.sequence < es[j].event.sequence
  }

  lemma ChainRising(c: Codec, t: Table, es: seq<Entry>)
    requires Chain(c, t, es)
    ensures Rising(es)
  {
    forall i, j | 0 <= i < j < |es|
      ensures es[i].event.sequence < es[j].event.sequence
    {
      SequenceNumbers(c, t, es, i);
      SequenceNumbers(c, t, es, j);
    }
  }

  lemma {:induction false} FilteredAll(es: seq<Entry>, id: string, a: int, b: int)
    requires forall i :: 0 <= i < |es| ==> es[i].event.sequence > a && es[i].event.sequence > b
    ensures Filtered(es, id, a) == Filtered(es, id, b)
  {
    if es != [] {
      FilteredAll(es[1..], id, a, b);
    }
  }

  lemma {:induction false} FilteredFrom(es: seq<Entry>, id: string, after: int, k: nat) returns (i: nat)
    requires k < |Filtered(es, id, after)|
    ensures i < |es| && es[i].event == Filtered(es, id, after)[k]
  {
    var hit := if es[0].job.id == id && es[0].event.sequence > after then 1 else 0;
    if k < hit {
      i := 0;
    } else {
      i := FilteredFrom(es[1..], id, after, k - hit);
      i := i + 1;
    }
  }

  /** Continuing after the n-th event yields the events after it. */
  predicate Resumes(es: seq<Entry>, id: string, after: int, n: nat) {
    var all := Filtered(es, id, after);
    0 < n <= |all| && all == all[..n] + Filtered(es, id, all[n - 1].sequence)
  }

  lemma FilteredSkips(es: seq<Entry>, id: string, after: int, k: nat)
    requires Rising(es) && es != [] && k < |Filtered(es[1..], id, after)|
    ensures var last := Filtered(es[1..], id, after)[k].sequence; Filtered(es, id, last) == Filtered(es[1..], id, last)
  {
    var i := FilteredFrom(es[1..], id, after, k);
  }

  lemma ResumesMiss(es: seq<Entry>, id: string, after: int, n: nat)
    requires Rising(es) && es != [] && (es[0].job.id != id || es[0].event.sequence <= after)
    requires Resumes(es[1..], id, after, n)
    ensures Resumes(es, id, after, n)
  {
    assert Filtered(es, id, after) == Filtered(es[1..], id, after);
    FilteredSkips(es, id, after, n - 1);
  }

  lemma ResumesFirst(es: seq<Entry>, id: string, after: int)
    requires Rising(es) && es != [] && es[0].job.id == id && es[0].event.sequence > after
    ensures Resumes(es, id, after, 1)
  {
    var last := es[0].event.sequence;
    FilteredAll(es[1..], id, after, last);
    assert Filtered(es, id, last) == Filtered(es[1..], id, last);
  }

  lemma SplitCons<T>(x: T, rest: seq<T>, n: nat, tail: seq<T>)
    requires n <= |rest| && rest == rest[..n] + tail
    ensures [x] + rest == ([x] + rest)[..n + 1] + tail
  {
  }

  lemma ResumesHit(es: seq<Entry>, id: string, after: int, n: nat)
    requires Rising(es) && es != [] && es[0].job.id == id && es[0].event.sequence > after
    requires Resumes(es[1..], id, after, n)
    ensures Resumes(es, id, after, n + 1)
  {
    var rest := Filtered(es[1..], id, after);
    assert Filtered(es, id, after) == [es[0].event] + rest;
    FilteredSkips(es, id, after, n - 1);
    SplitCons(es[0].event, rest, n, Filtered(es, id, rest[n - 1].sequence));
  }

  lemma {:induction false} RisingResumes(es: seq<Entry>, id: string, after: int, n: nat)
    requires Rising(es) && 0 < n <= |Filtered(es, id, after)|
    ensures Resumes(es, id, after, n)
    decreases |es|
  {
    if es[0].job.id == id && es[0].event.sequence > after {
      if n == 1 {
        ResumesFirst(es, id, after);
      } else {
        RisingResumes(es[1..], id, after, n - 1);
        ResumesHit(es, id, after, n - 1);
      }
    } else {
      RisingResumes(es[1..], id, after, n);
      ResumesMiss(es, id, after, n);
    }
  }

  /**
   In every journal that replay accepts, a reader that continues after the last
   sequence number of its page misses nothing and repeats nothing.
   */
  lemma EventsResume(c: Codec, file: string, id: string, after: int, n: nat)
    requires Replaying(c, EMPTY, file).Replayed?
    requires 0 < n <= |Filtered(Decoded(c, file), id, after)|
    ensures var all := Filtered(Decoded(c, file), id, after);
      all == all[..n] + Filtered(Decoded(c, file), id, all[n - 1].sequence)
  {
    AcceptedIsChain(c, EMPTY, file);
    ChainRising(c, EMPTY, Decoded(c, file));
    RisingResumes(Decoded(c, file), id, after, n);
  }
}
