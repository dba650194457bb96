/** Peer identifiers in byte form and the canonical order every node sorts them by. */
module PeerOrder {
  import opened Basics

  type PeerId = Bytes

  /** Byte-wise lexicographic order. */
  predicate Le(a: PeerId, b: PeerId) {
    a == [] || (b != [] && (a[0] < b[0] || (a[0] == b[0] && Le(a[1..], b[1..]))))
  }

  ghost predicate Sorted(s: seq<PeerId>) {
    forall i, j :: 0 <= i < j < |s| ==> Le(s[i], s[j])
  }

  /** The first byte that differs decides, the smaller one coming first, and a prefix
      comes before what it is a prefix of. */
  lemma {:induction false} LeByFirstDifference(a: PeerId, b: PeerId)
    ensures Le(a, b) <==> a <= b || exists k :: 0 <= k < |a| && k < |b| && a[..k] == b[..k] && a[k] < b[k]
  {
    if a == [] {
    } else if b == [] {
    } else if a[0] != b[0] {
      if a[0] < b[0] {
        assert a[..0] == b[..0];
      }
    } else {
      LeByFirstDifference(a[1..], b[1..]);
      assert a == [a[0]] + a[1..] && b == [b[0]] + b[1..];
      if k :| 0 <= k < |a[1..]| && k < |b[1..]| && a[1..][..k] == b[1..][..k] && a[1..][k] < b[1..][k] {
        assert a[..k + 1] == [a[0]] + a[1..][..k] && b[..k + 1] == [b[0]] + b[1..][..k];
      }
      if k :| 0 <= k < |a| && k < |b| && a[..k] == b[..k] && a[k] < b[k] {
        assert a[1..][..k - 1] == a[..k][1..] && b[1..][..k - 1] == b[..k][1..];
      }
    }
  }

  lemma {:induction false} LeTotal(a: PeerId, b: PeerId)
    ensures Le(a, b) || Le(b, a)
    ensures Le(a, b) && Le(b, a) ==> a == b
  {
    if a == [] || b == [] || a[0] != b[0] {
    } else {
      LeTotal(a[1..], b[1..]);
      assert a == [a[0]] + a[1..] && b == [b[0]] + b[1..];
    }
  }

  lemma {:induction false} LeTransitive(a: PeerId, b: PeerId, c: PeerId)
    requires Le(a, b) && Le(b, c)
    ensures Le(a, c)
  {
    if a == [] || a[0] != b[0] || b[0] != c[0] {
    } else {
      LeTransitive(a[1..], b[1..], c[1..]);
    }
  }

  function Insert(x: PeerId, s: seq<PeerId>): (r: seq<PeerId>)
    requires Sorted(s)
    ensures Sorted(r)
    ensures multiset(r) == multiset(s) + multiset{x}
  {
    if s == [] then [x]
    else if Le(x, s[0]) then
      assert forall j :: 0 <= j < |s| ==> Le(x, s[j]) by {
        forall j | 0 < j < |s| ensures Le(x, s[j]) { LeTransitive(x, s[0], s[j]); }
      }
      [x] + s
    else
      var rest := Insert(x, s[1..]);
      InsertedFurther(x, s, rest);
      [s[0]] + rest
  }

  lemma InsertedFurther(x: PeerId, s: seq<PeerId>, rest: seq<PeerId>)
    requires Sorted(s) && s != [] && !Le(x, s[0])
    requires Sorted(rest) && multiset(rest) == multiset(s[1..]) + multiset{x}
    ensures Sorted([s[0]] + rest) && multiset([s[0]] + rest) == multiset(s) + multiset{x}
  {
    LeTotal(x, s[0]);
    assert s == [s[0]] + s[1..];
    forall j | 0 <= j < |rest| ensures Le(s[0], rest[j]) {
      assert rest[j] in multiset(rest);
      assert rest[j] in s[1..] || rest[j] == x;
    }
  }

  /** The canonical list of the given peers. */
  function Sort(s: seq<PeerId>): (r: seq<PeerId>)
    ensures Sorted(r)
    ensures multiset(r) == multiset(s)
    ensures |r| == |s|
  {
    if s == [] then [] else
      var r := Insert(s[0], Sort(s[1..]));
      assert s == [s[0]] + s[1..];
      assert |multiset(r)| == |multiset(s)|;
      r
  }

  lemma SortedHead(a: seq<PeerId>, x: PeerId)
    requires Sorted(a) && x in a
    ensures Le(a[0], x)
  {
    LeTotal(x, x);
  }

  /** A multiset of peers has only one sorted listing. */
  lemma {:induction false} SortedUnique(a: seq<PeerId>, b: seq<PeerId>)
    requires Sorted(a) && Sorted(b)
    requires multiset(a) == multiset(b)
    ensures a == b
  {
    if a == [] {
      assert |multiset(b)| == 0;
    } else {
      assert a[0] in multiset(a) && a[0] in multiset(b);
      assert b[0] in multiset(b) && b[0] in multiset(a);
      SortedHead(a, b[0]);
      SortedHead(b, a[0]);
      LeTotal(a[0], b[0]);
      MultisetTail(a);
      MultisetTail(b);
      SortedUnique(a[1..], b[1..]);
      assert a == [a[0]] + a[1..];
    }
  }

  /** Sorting leaves a sorted list as it is. */
  lemma SortSorted(s: seq<PeerId>)
    requires Sorted(s)
    ensures Sort(s) == s
  {
    SortedUnique(Sort(s), s);
  }

  /** Any two listings of one set of peers, in whatever order a hash set yields
      them, sort to the same list of distinct peers. */
  lemma SortCanonical(a: seq<PeerId>, b: seq<PeerId>, peers: set<PeerId>)
    requires Distinct(a) && Distinct(b)
    requires Elems(a) == peers && Elems(b) == peers
    ensures Sort(a) == Sort(b)
    ensures Distinct(Sort(a)) && Elems(Sort(a)) == peers && |Sort(a)| == |peers|
  {
    DistinctMultiset(a);
    DistinctMultiset(b);
    assert multiset(a) == multiset(b) by {
      forall x ensures multiset(a)[x] == multiset(b)[x] {
        assert x in a <==> x in peers;
        assert x in b <==> x in peers;
      }
    }
    SortedUnique(Sort(a), Sort(b));
    SortKeepsDistinct(a);
    DistinctCount(a);
  }

  lemma SortKeepsDistinct(s: seq<PeerId>)
    requires Distinct(s)
    ensures Distinct(Sort(s))
    ensures Elems(Sort(s)) == Elems(s)
  {
    DistinctMultiset(s);
    MultisetDistinct(Sort(s));
    forall x ensures x in Sort(s) <==> x in s {
      assert x in Sort(s) <==> x in multiset(Sort(s));
      assert x in s <==> x in multiset(s);
    }
  }
}
