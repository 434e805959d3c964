/** Tables of records keyed by id, and their listings in id order. */
module Listings {
  import opened Orders
  import opened Records

  predicate Keyed(records: map<string, Record>) {
    forall id :: id in records ==> records[id].id == id
  }

  function Ids(rs: seq<Record>): (ids: seq<string>)
    ensures |ids| == |rs| && forall i :: 0 <= i < |rs| ==> ids[i] == rs[i].id
  {
    seq(|rs|, i requires 0 <= i < |rs| => rs[i].id)
  }

  /** The records of a table, sorted by id. */
  predicate Listing(records: map<string, Record>, rs: seq<Record>) {
    && Sorted(Ids(rs))
    && (forall r :: r in rs ==> r.id in records && records[r.id] == r)
    && (forall id :: id in records ==> records[id] in rs)
  }

  lemma ListingUnique(records: map<string, Record>, a: seq<Record>, b: seq<Record>)
    requires Keyed(records) && Listing(records, a) && Listing(records, b)
    ensures a == b
  {
    forall id
      ensures id in Ids(a) <==> id in Ids(b)
    {
      ListedIds(records, a, id);
      ListedIds(records, b, id);
    }
    SortedUnique(Ids(a), Ids(b));
    forall i | 0 <= i < |a|
      ensures a[i] == b[i]
    {
      assert a[i] in a && b[i] in b;
      assert Ids(a)[i] == Ids(b)[i];
    }
  }

  lemma ListedIds(records: map<string, Record>, rs: seq<Record>, id: string)
    requires Keyed(records) && Listing(records, rs)
    ensures id in Ids(rs) <==> id in records
  {
    if id in records {
      var i :| 0 <= i < |rs| && rs[i] == records[id];
      assert Ids(rs)[i] == id;
    }
    if id in Ids(rs) {
      var i :| 0 <= i < |rs| && Ids(rs)[i] == id;
      assert rs[i] in rs;
    }
  }

  /** Every record of a table once, sorted by id. */
  method SortById(records: map<string, Record>) returns (rs: seq<Record>)
    requires Keyed(records)
    ensures Listing(records, rs)
  {
    rs := [];
    var rest := records.Keys;
    while rest != {}
      invariant rest <= records.Keys && Sorted(Ids(rs))
      invariant forall r :: r in rs ==> r.id in records && records[r.id] == r && r.id !in rest
      invariant forall id :: id in records && id !in rest ==> records[id] in rs
      decreases |rest|
    {
      var id :| id in rest;
      rs := Insert(rs, records[id]);
      rest := rest - {id};
    }
  }

  /** One step of the sort by id. */
  method Insert(rs: seq<Record>, r: Record) returns (out: seq<Record>)
    requires Sorted(Ids(rs)) && forall s :: s in rs ==> s.id != r.id
    ensures Sorted(Ids(out)) && forall s :: s in out <==> s in rs || s == r
  {
    var i := 0;
    while i < |rs| && Less(rs[i].id, r.id)
      invariant i <= |rs|
      invariant forall k :: 0 <= k < i ==> Less(rs[k].id, r.id)
    {
      i := i + 1;
    }
    out := rs[..i] + [r] + rs[i..];
    InsertSorted(rs, r, i);
    forall s
      ensures s in out <==> s in rs || s == r
    {
      assert s in rs <==> s in rs[..i] || s in rs[i..] by {
        assert rs == rs[..i] + rs[i..];
      }
    }
  }

  lemma InsertSorted(rs: seq<Record>, r: Record, i: nat)
    requires i <= |rs| && Sorted(Ids(rs)) && forall s :: s in rs ==> s.id != r.id
    requires forall k :: 0 <= k < i ==> Less(rs[k].id, r.id)
    requires i < |rs| ==> !Less(rs[i].id, r.id)
    ensures Sorted(Ids(rs[..i] + [r] + rs[i..]))
  {
    var out := rs[..i] + [r] + rs[i..];
    forall k | i <= k < |rs|
      ensures Less(r.id, rs[k].id)
    {
      Orders.Total(rs[i].id, r.id);
      assert rs[i] in rs;
      if i < k {
        assert Less(Ids(rs)[i], Ids(rs)[k]);
        Transitive(r.id, rs[i].id, rs[k].id);
      }
    }
    forall a, b | 0 <= a < b < |out|
      ensures Less(Ids(out)[a], Ids(out)[b])
    {
      if a != i && b != i {
        var a', b' := if a < i then a else a - 1, if b < i then b else b - 1;
        assert Less(Ids(rs)[a'], Ids(rs)[b']);
      }
    }
  }
}
