/** The lexicographic order on identifiers and strictly sorted lists of them. */
module Orders {

  predicate Less(a: string, b: string)
    decreases |a|
  {
    if b == "" then false
    else if a == "" then true
    else a[0] < b[0] || (a[0] == b[0] && Less(a[1..], b[1..]))
  }

  /** Two strings agree up to some position; there one ends, or has the smaller character. */
  predicate Before(a: string, b: string, n: nat) {
    && n <= |a| && n < |b| && a[..n] == b[..n]
    && (n == |a| || a[n] < b[n])
  }

  /** The order is that of the first difference; a string comes after its own prefixes. */
  lemma {:induction false} LessIff(a: string, b: string)
    ensures Less(a, b) <==> exists n: nat :: Before(a, b, n)
    decreases |a|
  {
    if a == "" && b != "" {
      assert Before(a, b, 0);
    } else if a != "" && b != "" {
      LessIff(a[1..], b[1..]);
      if a[0] < b[0] {
        assert Before(a, b, 0);
      } else if Less(a, b) {
        var n: nat :| Before(a[1..], b[1..], n);
        assert a[..n + 1] == [a[0]] + a[1..][..n] && b[..n + 1] == [b[0]] + b[1..][..n];
        assert Before(a, b, n + 1);
      }
      forall n: nat | Before(a, b, n)
        ensures Less(a, b)
      {
        if n > 0 {
          assert a[..n][0] == b[..n][0];
          assert a[1..][..n - 1] == a[..n][1..] && b[1..][..n - 1] == b[..n][1..];
          assert Before(a[1..], b[1..], n - 1);
        }
      }
    }
  }

  lemma {:induction false} Irreflexive(a: string)
    ensures !Less(a, a)
  {
    if a != "" {
      Irreflexive(a[1..]);
    }
  }

  lemma {:induction false} Transitive(a: string, b: string, c: string)
    requires Less(a, b) && Less(b, c)
    ensures Less(a, c)
    decreases |a|
  {
    if a != "" && a[0] == b[0] == c[0] {
      Transitive(a[1..], b[1..], c[1..]);
    }
  }

  lemma {:induction false} Total(a: string, b: string)
    ensures Less(a, b) || a == b || Less(b, a)
    decreases |a|
  {
    if a != "" && b != "" && a[0] == b[0] {
      Total(a[1..], b[1..]);
      assert a == [a[0]] + a[1..] && b == [b[0]] + b[1..];
    }
  }

  predicate Sorted(ids: seq<string>) {
    forall i, j :: 0 <= i < j < |ids| ==> Less(ids[i], ids[j])
  }

  lemma Asymmetric(a: string, b: string)
    requires Less(a, b)
    ensures !Less(b, a) && a != b
  {
    Irreflexive(a);
    if Less(b, a) {
      Transitive(a, b, a);
    }
  }

  lemma SortedDistinct(ids: seq<string>)
    requires Sorted(ids)
    ensures forall i, j :: 0 <= i < j < |ids| ==> ids[i] != ids[j]
  {
    forall i, j | 0 <= i < j < |ids|
      ensures ids[i] != ids[j]
    {
      Asymmetric(ids[i], ids[j]);
    }
  }

  lemma SomeMember(b: seq<string>)
    ensures b != [] ==> b[0] in b
  {
  }

  /** A set has one sorted listing. */
  lemma {:induction false} SortedUnique(a: seq<string>, b: seq<string>)
    requires Sorted(a) && Sorted(b) && forall id :: id in a <==> id in b
    ensures a == b
    decreases |a|
  {
    SomeMember(b);
    if a != [] {
      assert a[0] in b;
      assert b[0] in a;
      var i :| 0 <= i < |b| && b[i] == a[0];
      var j :| 0 <= j < |a| && a[j] == b[0];
      if i > 0 && j > 0 {
        Asymmetric(b[0], a[0]);
      } else if i > 0 {
        Irreflexive(a[0]);
      }
      assert a[0] == b[0];
      SortedDistinct(a);
      SortedDistinct(b);
      forall id
        ensures id in a[1..] <==> id in b[1..]
      {
        TailMembers(a, id);
        TailMembers(b, id);
      }
      SortedUnique(a[1..], b[1..]);
      assert a == [a[0]] + a[1..] && b == [b[0]] + b[1..];
    }
  }

  lemma TailMembers(a: seq<string>, id: string)
    requires a != [] && forall i, j :: 0 <= i < j < |a| ==> a[i] != a[j]
    ensures id in a[1..] <==> id in a && id != a[0]
  {
    if id in a && id != a[0] {
      var i :| 0 <= i < |a| && a[i] == id;
      assert a[1..][i - 1] == id;
    }
  }
}
