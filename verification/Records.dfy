/**
 Records, pages, page validation and the Source contract
 (connector/connector.go, docs/connector-contract.md).
 */
module Records {
  import opened Basics

  /** A float32 as far as validation can tell values apart. */
  datatype Float = Finite(value: real) | NotFinite

  /** Raw metadata JSON: null, a string, any other valid text, or invalid text. */
  datatype Json = Null | Str(text: string) | Other(raw: string) | Malformed(raw: string)

  datatype Record = Record(id: string, values: seq<Float>, metadata: map<string, Json>)

  datatype Page = Page(records: seq<Record>, next: string, done: bool)

  datatype Fault = EmptyID | DuplicateID | WrongDimension | NonFinite | InvalidMetadata

  predicate FiniteValues(r: Record) {
    forall i :: 0 <= i < |r.values| ==> r.values[i].Finite?
  }

  predicate ValidMetadata(r: Record) {
    forall k :: k in r.metadata ==> !r.metadata[k].Malformed?
  }

  /** A record that passes every check that looks at one record only. */
  predicate ValidRecord(r: Record, dimension: int) {
    && r.id != ""
    && |r.values| == dimension
    && FiniteValues(r)
    && ValidMetadata(r)
  }

  predicate DistinctIds(rs: seq<Record>) {
    forall i, j :: 0 <= i < j < |rs| ==> rs[i].id != rs[j].id
  }

  predicate ValidPage(rs: seq<Record>, dimension: int) {
    && DistinctIds(rs)
    && forall i :: 0 <= i < |rs| ==> ValidRecord(rs[i], dimension)
  }

  /** What each fault says about record i, given that the records before it are fine. */
  predicate Explains(fault: Fault, rs: seq<Record>, i: nat, dimension: int)
    requires i < |rs|
  {
    match fault
    case EmptyID => rs[i].id == ""
    case DuplicateID => exists j :: 0 <= j < i && rs[j].id == rs[i].id
    case WrongDimension => |rs[i].values| != dimension
    case NonFinite => !FiniteValues(rs[i])
    case InvalidMetadata => !ValidMetadata(rs[i])
  }

  /** connector.Validate: nil exactly on valid pages, otherwise the first offending record. */
  method Validate(rs: seq<Record>, dimension: int) returns (fault: Option<Fault>, at: nat)
    ensures fault.None? <==> ValidPage(rs, dimension)
    ensures fault.Some? ==> at < |rs| && ValidPage(rs[..at], dimension) && Explains(fault.value, rs, at, dimension)
    ensures fault.None? <==>
      && (forall i, j :: 0 <= i < j < |rs| ==> rs[i].id != rs[j].id)
      && (forall i :: 0 <= i < |rs| ==> rs[i].id != "" && |rs[i].values| == dimension)
      && (forall i, j :: 0 <= i < |rs| && 0 <= j < |rs[i].values| ==> rs[i].values[j].Finite?)
      && (forall i, k :: 0 <= i < |rs| && k in rs[i].metadata ==> !rs[i].metadata[k].Malformed?)
    ensures fault == Some(EmptyID) ==> rs[at].id == ""
    ensures fault == Some(DuplicateID) ==> exists j :: 0 <= j < at && rs[j].id == rs[at].id
    ensures fault == Some(WrongDimension) ==> |rs[at].values| != dimension
    ensures fault == Some(NonFinite) ==> exists j :: 0 <= j < |rs[at].values| && rs[at].values[j].NotFinite?
    ensures fault == Some(InvalidMetadata) ==> exists k :: k in rs[at].metadata && rs[at].metadata[k].Malformed?
  {
    var seen: set<string> := {};
    at := 0;
    while at < |rs|
      invariant at <= |rs|
      invariant forall id :: id in seen <==> exists j :: 0 <= j < at && rs[j].id == id
      invariant ValidPage(rs[..at], dimension)
    {
      var r := rs[at];
      if r.id == "" {
        return Some(EmptyID), at;
      }
      if r.id in seen {
        return Some(DuplicateID), at;
      }
      seen := seen + {r.id};
      if |r.values| != dimension {
        return Some(WrongDimension), at;
      }
      var i := 0;
      while i < |r.values|
        invariant i <= |r.values|
        invariant forall k :: 0 <= k < i ==> r.values[k].Finite?
      {
        if r.values[i].NotFinite? {
          return Some(NonFinite), at;
        }
        i := i + 1;
      }
      var keys := r.metadata.Keys;
      while keys != {}
        invariant keys <= r.metadata.Keys
        invariant forall k :: k in r.metadata && k !in keys ==> !r.metadata[k].Malformed?
        decreases |keys|
      {
        var k :| k in keys;
        if r.metadata[k].Malformed? {
          return Some(InvalidMetadata), at;
        }
        keys := keys - {k};
      }
      assert rs[..at + 1] == rs[..at] + [r];
      at := at + 1;
    }
    assert rs[..at] == rs;
    return None, at;
  }

  /**
   A stable dataset as one job sees it: the pages of a complete scan at the job's
   page size, and the page index every durable cursor stands for. Cursors need
   not be unique: several tokens may stand for the same position.
   */
  datatype Scan = Scan(pages: seq<seq<Record>>, pos: string -> nat)

  ghost predicate ValidScan(scan: Scan) {
    && |scan.pages| > 0
    && scan.pos("") == 0
    && (forall p, q, r, s | 0 <= p < |scan.pages| && 0 <= q < |scan.pages|
          && r in scan.pages[p] && s in scan.pages[q] && r.id == s.id :: r == s)
  }

  /** The Source contract for a successful read of the page at cursor. */
  predicate ContractPage(scan: Scan, cursor: string, page: Page) {
    && scan.pos(cursor) < |scan.pages|
    && page.records == scan.pages[scan.pos(cursor)]
    && (page.done <==> scan.pos(cursor) + 1 == |scan.pages|)
    && (!page.done ==> scan.pos(page.next) == scan.pos(cursor) + 1)
  }

  /** Records in the first k pages. */
  ghost function Total(scan: Scan, k: nat): (n: nat)
    requires k <= |scan.pages|
  {
    if k == 0 then 0 else Total(scan, k - 1) + |scan.pages[k - 1]|
  }

  /** Nonempty pages among the first k. */
  ghost function Nonempty(scan: Scan, k: nat): (n: nat)
    requires k <= |scan.pages|
  {
    if k == 0 then 0 else Nonempty(scan, k - 1) + if scan.pages[k - 1] == [] then 0 else 1
  }

  lemma {:induction false} TotalMonotone(scan: Scan, a: nat, b: nat)
    requires a <= b <= |scan.pages|
    ensures Total(scan, a) <= Total(scan, b)
    ensures Nonempty(scan, a) <= Nonempty(scan, b)
    ensures Total(scan, a) == Total(scan, b) ==> Nonempty(scan, a) == Nonempty(scan, b)
    decreases b
  {
    if a < b {
      TotalMonotone(scan, a, b - 1);
    }
  }
}
