/**
 The Milvus scan (connector/additional_rest.go, readMilvus): int64 primary keys,
 unordered truncated answers, and ranges halved until one fits a page.
 */
module Milvus {
  import opened Basics
  import opened Decimals
  import opened FiniteSets

  const MIN64: int := -0x8000_0000_0000_0000
  const MAX64: int := 0x7fff_ffff_ffff_ffff
  const TWO64: int := 0x1_0000_0000_0000_0000

  predicate Int64(x: int) {
    MIN64 <= x <= MAX64
  }

  /** Go's conversions between int64 and uint64. */
  function ToUnsigned(x: int): int {
    if x < 0 then x + TWO64 else x
  }

  function ToSigned(u: int): int {
    if u > MAX64 then u - TWO64 else u
  }

  /** low + int64((uint64(high)-uint64(low))/2) with wrapping arithmetic. */
  function Midpoint(low: int, high: int): int {
    var width := (ToUnsigned(high) - ToUnsigned(low)) % TWO64;
    ToSigned(ToUnsigned(low + ToSigned(width / 2)) % TWO64)
  }

  /** No step of the midpoint overflows, over the whole int64 range. */
  lemma MidpointExact(low: int, high: int)
    requires Int64(low) && Int64(high) && low < high
    ensures Midpoint(low, high) == low + (high - low) / 2
    ensures low <= Midpoint(low, high) < high
  {
    var width := (ToUnsigned(high) - ToUnsigned(low)) % TWO64;
    assert width == high - low;
    assert width / 2 <= MAX64;
  }

  // ---- the server ----

  function Matching(keys: set<int>, low: int, high: int): set<int> {
    set k | k in keys && low <= k <= high
  }

  predicate Distinct(ids: seq<int>) {
    forall i, j :: 0 <= i < j < |ids| ==> ids[i] != ids[j]
  }

  /** A legal answer: some of the matching keys, in any order, as many as the limit allows. */
  predicate Answers(keys: set<int>, low: int, high: int, limit: nat, ids: seq<int>) {
    && Distinct(ids) && (forall i :: 0 <= i < |ids| ==> ids[i] in Matching(keys, low, high))
    && |ids| == Min(limit, |Matching(keys, low, high)|)
  }

  predicate Ascending(ids: seq<int>) {
    forall i, j :: 0 <= i < j < |ids| ==> ids[i] < ids[j]
  }

  /** Exactly these keys, each once, in ascending order. */
  predicate Lists(keys: set<int>, ids: seq<int>) {
    Ascending(ids) && (forall i :: 0 <= i < |ids| ==> ids[i] in keys) && forall k :: k in keys ==> k in ids
  }

  /** The upper end at which the halving stops. */
  function Fit(keys: set<int>, low: int, high: int, limit: nat): (h: int)
    requires low <= high
    ensures low <= h <= high
    decreases high - low
  {
    if |Matching(keys, low, high)| <= limit || low == high then high
    else Fit(keys, low, low + (high - low) / 2, limit)
  }

  lemma SingleRange(keys: set<int>, low: int)
    ensures |Matching(keys, low, low)| <= 1
  {
    SubsetSize(Matching(keys, low, low), {low});
  }

  lemma FitIsPage(keys: set<int>, low: int, high: int, limit: nat)
    requires low <= high && limit > 0
    ensures |Matching(keys, low, Fit(keys, low, high, limit))| <= limit
    decreases high - low
  {
    if low == high {
      SingleRange(keys, low);
    } else if |Matching(keys, low, high)| > limit {
      FitIsPage(keys, low, low + (high - low) / 2, limit);
    }
  }

  function SetOf(ids: seq<int>): set<int> {
    set i | 0 <= i < |ids| :: ids[i]
  }

  lemma {:induction false} SetOfSize(ids: seq<int>)
    requires Distinct(ids)
    ensures |SetOf(ids)| == |ids|
  {
    if ids != [] {
      var front, last := ids[..|ids| - 1], ids[|ids| - 1];
      SetOfSize(front);
      assert SetOf(ids) == SetOf(front) + {last};
      assert last !in SetOf(front);
    }
  }

  /** An answer that is not cut off holds every matching key. */
  lemma WholeAnswer(keys: set<int>, low: int, high: int, limit: nat, ids: seq<int>)
    requires Answers(keys, low, high, limit, ids) && |ids| < limit
    ensures forall k :: k in Matching(keys, low, high) ==> k in ids
  {
    SetOfSize(ids);
    var all := Matching(keys, low, high);
    assert SetOf(ids) <= all;
    assert |all - SetOf(ids)| == |all| - |SetOf(ids)|;
    assert all <= SetOf(ids);
  }

  /** sort.Slice by integer key. */
  method Sort(ids: seq<int>) returns (out: seq<int>)
    requires Distinct(ids)
    ensures Ascending(out) && (forall k :: k in out <==> k in ids) && |out| == |ids|
  {
    out := [];
    var n := 0;
    while n < |ids|
      invariant n <= |ids| && |out| == n && Ascending(out) && forall k :: k in out <==> k in ids[..n]
    {
      var i := 0;
      assert ids[n] !in ids[..n];
      while i < |out| && out[i] < ids[n]
        invariant i <= |out| && forall k :: 0 <= k < i ==> out[k] < ids[n]
      {
        i := i + 1;
      }
      assert i < |out| ==> out[i] in out;
      ghost var before := out;
      out := out[..i] + [ids[n]] + out[i..];
      assert forall k :: k in before <==> k in before[..i] || k in before[i..] by {
        assert before == before[..i] + before[i..];
      }
      assert ids[..n + 1] == ids[..n] + [ids[n]];
      n := n + 1;
    }
    assert ids[..n] == ids;
  }

  datatype Page = Page(ids: seq<int>, next: string, done: bool)

  /** The first key of the range a cursor stands for. */
  function Low(cursor: string): Option<int> {
    if cursor == "" then Some(MIN64)
    else
      match Parse(cursor)
      case None => None
      case Some(n) => if Int64(n) then Some(n) else None
  }

  lemma {:induction false} PowDouble(a: nat, b: nat)
    ensures Pow2(a + b) == Pow2(a) * Pow2(b)
  {
    if a > 0 {
      PowDouble(a - 1, b);
    }
  }

  lemma Squared(half: nat, root: nat, e: nat)
    requires Pow2(half) == root && e == 2 * half
    ensures Pow2(e) == root * root
  {
    PowDouble(half, half);
  }

  /** 64 halvings shrink the widest range to one key. */
  lemma HalvingBound(e: nat)
    requires e == 64
    ensures Pow2(e) == TWO64
  {
    var one, two, four, eight, sixteen, half := e / 64, e / 32, e / 16, e / 8, e / 4, e / 2;
    assert Pow2(one) == 2 * Pow2(one - 1);
    Squared(one, 2, two);
    Squared(two, 4, four);
    Squared(four, 16, eight);
    Squared(eight, 256, sixteen);
    Squared(sixteen, 65536, half);
    Squared(half, 0x1_0000_0000, e);
  }

  /** The one page a cursor stands for, up to the server's choices, and the cursor after it. */
  predicate PageOf(keys: set<int>, cursor: string, limit: nat, page: Page) {
    Low(cursor).Some? &&
    var low := Low(cursor).value;
    var high := Fit(keys, low, MAX64, limit);
    && Lists(Matching(keys, low, high), page.ids)
    && (page.done <==> high == MAX64)
    && (!page.done ==> page.next == Format(high + 1) && Low(page.next) == Some(high + 1))
  }

  /** The tail of readMilvus: the page of a range whose keys are all at hand. */
  method Assemble(keys: set<int>, low: int, high: int, data: seq<int>) returns (page: Page)
    requires Distinct(data) && Int64(high) && forall k :: k in Matching(keys, low, high) <==> k in data
    ensures Lists(Matching(keys, low, high), page.ids) && |page.ids| == |data| && (page.done <==> high == MAX64)
    ensures !page.done ==> page.next == Format(high + 1) && Low(page.next) == Some(high + 1)
  {
    var ids := Sort(data);
    assert forall i :: 0 <= i < |ids| ==> ids[i] in ids;
    var done := high == MAX64;
    FormatRoundTrip(high + 1);
    page := Page(ids, if done then "" else Format(high + 1), done);
  }

  /** The loop of readMilvus: the range is halved until it fits; every range is narrower than the last. */
  method Narrow(keys: set<int>, low: int, limit: nat, server: (int, int) -> seq<int>)
    returns (high: int, data: seq<int>, queries: nat)
    requires limit > 0 && Int64(low)
    requires forall low, high :: Answers(keys, low, high, limit + 1, server(low, high))
    ensures low <= high && Int64(high) && high == Fit(keys, low, MAX64, limit)
    ensures Answers(keys, low, high, limit + 1, data) && |data| <= limit
    ensures queries <= 65
  {
    queries, high := 0, MAX64;
    ghost var width := TWO64;
    ghost var halvings := 64;
    HalvingBound(halvings);
    while true
      invariant Int64(high) && low <= high
      invariant Fit(keys, low, MAX64, limit) == Fit(keys, low, high, limit)
      invariant queries + halvings == 64 && width == Pow2(halvings) && high - low < width
      decreases high - low
    {
      data := server(low, high);
      queries := queries + 1;
      assert Answers(keys, low, high, limit + 1, data);
      if |data| <= limit {
        return;
      }
      if low == high {
        SingleRange(keys, low);
        assert false;
      }
      MidpointExact(low, high);
      high := Midpoint(low, high);
      assert halvings > 0;
      halvings, width := halvings - 1, width / 2;
    }
  }

  lemma {:induction false} AscendingSize(ids: seq<int>)
    requires Ascending(ids)
    ensures |SetOf(ids)| == |ids|
  {
    SetOfSize(ids);
  }

  /** The page of a cursor fits the limit, by the choice of its range alone. */
  lemma PageFits(keys: set<int>, cursor: string, limit: nat, page: Page)
    requires limit > 0 && PageOf(keys, cursor, limit, page)
    ensures |page.ids| <= limit
  {
    var low := Low(cursor).value;
    var high := Fit(keys, low, MAX64, limit);
    FitIsPage(keys, low, MAX64, limit);
    AscendingSize(page.ids);
    assert SetOf(page.ids) == Matching(keys, low, high);
  }

  /**
   readMilvus. Whatever subset the server chooses to return, the page is all keys
   of a range that starts at the cursor and fits the limit, in ascending order;
   the next cursor is the key after that range; at most 65 queries are issued.
   */
  method ReadMilvus(keys: set<int>, cursor: string, limit: nat, server: (int, int) -> seq<int>)
    returns (page: Option<Page>, queries: nat)
    requires limit > 0
    requires forall low, high :: Answers(keys, low, high, limit + 1, server(low, high))
    ensures page.None? <==> Low(cursor).None?
    ensures page.Some? ==> PageOf(keys, cursor, limit, page.value) && |page.value.ids| <= limit
    ensures queries <= 65
  {
    var start := Low(cursor);
    if start.None? {
      return None, 0;
    }
    var low := start.value;
    var high, data;
    high, data, queries := Narrow(keys, low, limit, server);
    WholeAnswer(keys, low, high, limit + 1, data);
    var answer := Assemble(keys, low, high, data);
    return Some(answer), queries;
  }

  // ---- the scan ----

  /** Pages read one after the other, each from the cursor before it, until one is done. */
  predicate IsScan(keys: set<int>, cursor: string, limit: nat, pages: seq<Page>)
    decreases |pages|
  {
    && pages != [] && PageOf(keys, cursor, limit, pages[0])
    && if pages[0].done then |pages| == 1 else IsScan(keys, pages[0].next, limit, pages[1..])
  }

  function Flat(pages: seq<Page>): seq<int> {
    if pages == [] then [] else pages[0].ids + Flat(pages[1..])
  }

  lemma Joined(a: set<int>, b: set<int>, x: seq<int>, y: seq<int>)
    requires Lists(a, x) && Lists(b, y) && forall i, j :: i in a && j in b ==> i < j
    ensures Lists(a + b, x + y)
  {
  }

  /** A scan emits every key at or after its start, each once, in ascending order. */
  lemma {:induction false} ScanFrom(keys: set<int>, cursor: string, limit: nat, pages: seq<Page>)
    requires IsScan(keys, cursor, limit, pages)
    ensures Lists(Matching(keys, Low(cursor).value, MAX64), Flat(pages))
    decreases |pages|
  {
    var low := Low(cursor).value;
    var high := Fit(keys, low, MAX64, limit);
    if high == MAX64 {
      assert Flat(pages[1..]) == [];
      assert Flat(pages) == pages[0].ids;
    } else {
      ScanFrom(keys, pages[0].next, limit, pages[1..]);
      Joined(Matching(keys, low, high), Matching(keys, high + 1, MAX64), pages[0].ids, Flat(pages[1..]));
      assert Matching(keys, low, MAX64) == Matching(keys, low, high) + Matching(keys, high + 1, MAX64);
    }
  }

  /** The whole scan lists the whole collection, including the extreme keys. */
  lemma FullScan(keys: set<int>, limit: nat, pages: seq<Page>)
    requires (forall k :: k in keys ==> Int64(k)) && IsScan(keys, "", limit, pages)
    ensures Lists(keys, Flat(pages))
  {
    ScanFrom(keys, "", limit, pages);
    assert Matching(keys, MIN64, MAX64) == keys;
  }

  /** Pages that are not the last, read one after the other from a cursor up to the next one. */
  predicate Leads(keys: set<int>, cursor: string, limit: nat, pages: seq<Page>, next: string)
    decreases |pages|
  {
    if pages == [] then cursor == next
    else PageOf(keys, cursor, limit, pages[0]) && !pages[0].done && Leads(keys, pages[0].next, limit, pages[1..], next)
  }

  lemma {:induction false} LeadsOn(keys: set<int>, cursor: string, limit: nat, pages: seq<Page>, next: string, page: Page)
    requires Leads(keys, cursor, limit, pages, next) && PageOf(keys, next, limit, page)
    ensures page.done ==> IsScan(keys, cursor, limit, pages + [page])
    ensures !page.done ==> Leads(keys, cursor, limit, pages + [page], page.next)
    decreases |pages|
  {
    var more := pages + [page];
    if pages == [] {
      assert more == [page] && more[1..] == [];
    } else {
      LeadsOn(keys, pages[0].next, limit, pages[1..], next, page);
      assert more[1..] == pages[1..] + [page];
    }
  }

  /** Following Next from the empty cursor ends, and lists the collection; server(k) is the server at the k-th read. */
  method ReadAll(keys: set<int>, limit: nat, server: nat -> (int, int) -> seq<int>) returns (pages: seq<Page>)
    requires limit > 0 && forall k :: k in keys ==> Int64(k)
    requires forall k, low, high :: Answers(keys, low, high, limit + 1, server(k)(low, high))
    ensures IsScan(keys, "", limit, pages) && Lists(keys, Flat(pages))
  {
    pages := [];
    var cursor := "";
    while true
      invariant Low(cursor).Some? && Leads(keys, "", limit, pages, cursor)
      decreases MAX64 - Low(cursor).value
    {
      var page, _ := ReadMilvus(keys, cursor, limit, server(|pages|));
      LeadsOn(keys, "", limit, pages, cursor, page.value);
      pages := pages + [page.value];
      if page.value.done {
        FullScan(keys, limit, pages);
        return;
      }
      cursor := page.value.next;
    }
  }

  /** The pages of a scan do not depend on what the server chose: reading a cursor again gives the same page. */
  lemma {:induction false} ListsUnique(keys: set<int>, a: seq<int>, b: seq<int>)
    requires Lists(keys, a) && Lists(keys, b)
    ensures a == b
    decreases |a|
  {
    EmptyLists(keys, a);
    EmptyLists(keys, b);
    if a != [] {
      assert a[0] in b && b[0] in a;
      assert a[0] == b[0];
      TailLists(keys, a);
      TailLists(keys, b);
      ListsUnique(keys - {a[0]}, a[1..], b[1..]);
    }
  }

  lemma EmptyLists(keys: set<int>, a: seq<int>)
    requires Lists(keys, a)
    ensures a == [] <==> keys == {}
  {
    if a != [] {
      assert a[0] in keys;
    }
    if keys != {} {
      var k := Pick(keys);
      assert k in a;
    }
  }

  lemma TailLists(keys: set<int>, a: seq<int>)
    requires Lists(keys, a) && a != []
    ensures Lists(keys - {a[0]}, a[1..])
  {
    forall k | k in keys - {a[0]}
      ensures k in a[1..]
    {
      var i :| 0 <= i < |a| && a[i] == k;
      assert a[1..][i - 1] == k;
    }
  }
}
