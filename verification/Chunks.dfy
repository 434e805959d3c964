/** Bounded chunking of a write (connector/http.go, chunks). */
module Chunks {
  import opened Basics

  datatype Outcome = Sent | TooLarge | SendFailed

  function Concat<T>(parts: seq<seq<T>>): seq<T> {
    if parts == [] then [] else Concat(parts[..|parts| - 1]) + parts[|parts| - 1]
  }

  /** What the destination requires of one request. */
  predicate Fits<T>(part: seq<T>, maxRecords: nat, maxBytes: int, size: seq<T> -> int) {
    0 < |part| <= maxRecords && size(part) <= maxBytes
  }

  /** The encoding of part of a chunk is never larger than that of the chunk. */
  ghost predicate GrowsWithRecords<T(!new)>(size: seq<T> -> int) {
    forall part, i, j :: 0 <= i <= j <= |part| ==> size(part[i..j]) <= size(part)
  }

  /** A chunk at a position is as large as the limits allow, or half of one that does not fit. */
  predicate Halved<T>(records: seq<T>, at: nat, n: nat, maxRecords: nat, maxBytes: int, size: seq<T> -> int) {
    at <= |records| &&
    var most := Min(|records| - at, maxRecords);
    n == most || exists m :: n < m <= most && (m / 2 == n || (m / 2 == 0 && n == 1)) && size(records[at..at + m]) > maxBytes
  }

  predicate Greedy<T>(records: seq<T>, sent: seq<seq<T>>, maxRecords: nat, maxBytes: int, size: seq<T> -> int) {
    forall k :: 0 <= k < |sent| ==> Halved(records, |Concat(sent[..k])|, |sent[k]|, maxRecords, maxBytes, size)
  }

  lemma GreedyAppend<T>(records: seq<T>, sent: seq<seq<T>>, part: seq<T>, maxRecords: nat, maxBytes: int, size: seq<T> -> int)
    requires Greedy(records, sent, maxRecords, maxBytes, size)
    requires Halved(records, |Concat(sent)|, |part|, maxRecords, maxBytes, size)
    ensures Greedy(records, sent + [part], maxRecords, maxBytes, size)
  {
    var more := sent + [part];
    forall k | 0 <= k < |more|
      ensures Halved(records, |Concat(more[..k])|, |more[k]|, maxRecords, maxBytes, size)
    {
      if k < |sent| {
        assert more[..k] == sent[..k];
      } else {
        assert more[..k] == sent;
      }
    }
  }

  lemma ConcatAppend<T>(parts: seq<seq<T>>, part: seq<T>)
    ensures Concat(parts + [part]) == Concat(parts) + part
  {
    assert (parts + [part])[..|parts|] == parts;
  }

  lemma StillAhead<T>(records: seq<T>, sent: seq<seq<T>>, rest: seq<T>)
    requires Concat(sent) + rest == records
    ensures rest == records[|Concat(sent)|..] && |records| == |Concat(sent)| + |rest|
  {
  }

  lemma Advance<T>(records: seq<T>, sent: seq<seq<T>>, rest: seq<T>, n: nat, maxRecords: nat, maxBytes: int, size: seq<T> -> int)
    requires Concat(sent) + rest == records && n <= |rest| && Greedy(records, sent, maxRecords, maxBytes, size)
    requires Halved(records, |Concat(sent)|, n, maxRecords, maxBytes, size)
    ensures Concat(sent + [rest[..n]]) + rest[n..] == records && Greedy(records, sent + [rest[..n]], maxRecords, maxBytes, size)
  {
    ConcatAppend(sent, rest[..n]);
    GreedyAppend(records, sent, rest[..n], maxRecords, maxBytes, size);
  }

  /** The inner loop: the size of the next chunk, halved until it fits; a single record may not. */
  method NextChunk<T>(ghost records: seq<T>, ghost at: nat, rest: seq<T>, maxRecords: nat, maxBytes: int, size: seq<T> -> int)
    returns (n: nat, fits: bool)
    requires maxRecords > 0 && at < |records| && rest == records[at..]
    ensures 1 <= n <= |rest| && n <= maxRecords && Halved(records, at, n, maxRecords, maxBytes, size)
    ensures fits <==> size(rest[..n]) <= maxBytes
    ensures !fits ==> n == 1 && size([records[at]]) > maxBytes
  {
    n := Min(|rest|, maxRecords);
    while size(rest[..n]) > maxBytes
      invariant 1 <= n <= |rest| && n <= maxRecords && Halved(records, at, n, maxRecords, maxBytes, size)
      decreases n
    {
      assert records[at..at + n] == rest[..n];
      if n == 1 {
        assert rest[..1] == [records[at]];
        return n, false;
      }
      n := Max(1, n / 2);
    }
    return n, true;
  }

  /**
   Sends the records in order, in chunks halved until they fit. accepts(k) is the
   destination's answer to the k-th request; sent are the acknowledged chunks.
   */
  method SendChunks<T>(records: seq<T>, maxRecords: nat, maxBytes: int, size: seq<T> -> int, accepts: nat -> bool)
    returns (outcome: Outcome, sent: seq<seq<T>>)
    requires maxRecords > 0
    ensures forall k :: 0 <= k < |sent| ==> Fits(sent[k], maxRecords, maxBytes, size) && accepts(k)
    ensures Concat(sent) <= records
    ensures Greedy(records, sent, maxRecords, maxBytes, size)
    ensures outcome.Sent? ==> Concat(sent) == records
    ensures outcome.SendFailed? ==> !accepts(|sent|) && Concat(sent) != records
    ensures outcome.TooLarge? ==> |Concat(sent)| < |records| && size([records[|Concat(sent)|]]) > maxBytes
  {
    sent := [];
    var rest := records;
    while |rest| > 0
      invariant Concat(sent) + rest == records
      invariant forall k :: 0 <= k < |sent| ==> Fits(sent[k], maxRecords, maxBytes, size) && accepts(k)
      invariant Greedy(records, sent, maxRecords, maxBytes, size)
      decreases |rest|
    {
      StillAhead(records, sent, rest);
      var n, fits := NextChunk(records, |Concat(sent)|, rest, maxRecords, maxBytes, size);
      if !fits {
        return TooLarge, sent;
      }
      if !accepts(|sent|) {
        return SendFailed, sent;
      }
      Advance(records, sent, rest, n, maxRecords, maxBytes, size);
      sent := sent + [rest[..n]];
      rest := rest[n..];
    }
    return Sent, sent;
  }

  lemma {:induction false} Covered<T>(parts: seq<seq<T>>, i: nat) returns (k: nat, at: nat)
    requires i < |Concat(parts)|
    ensures k < |parts| && at < |parts[k]| && parts[k][at] == Concat(parts)[i]
    decreases |parts|
  {
    var last := |parts| - 1;
    var before := Concat(parts[..last]);
    if i < |before| {
      k, at := Covered(parts[..last], i);
    } else {
      k, at := last, i - |before|;
    }
  }

  /** With a destination that accepts everything, the write fails exactly when one record alone is too large. */
  method SendToWilling<T(!new)>(records: seq<T>, maxRecords: nat, maxBytes: int, size: seq<T> -> int)
    returns (outcome: Outcome, sent: seq<seq<T>>)
    requires maxRecords > 0 && GrowsWithRecords(size)
    ensures outcome.Sent? <==> forall i :: 0 <= i < |records| ==> size([records[i]]) <= maxBytes
    ensures outcome.Sent? || outcome.TooLarge?
  {
    outcome, sent := SendChunks(records, maxRecords, maxBytes, size, _ => true);
    if outcome.Sent? {
      forall i | 0 <= i < |records|
        ensures size([records[i]]) <= maxBytes
      {
        var k, at := Covered(sent, i);
        assert sent[k][at..at + 1] == [records[i]];
      }
    }
  }
}
