/** Values shared by every module: bytes, optional results, concatenation of
    byte strings, and the counting facts the protocol proofs rest on. */
module Basics {

  type byte = b: nat | b < 256

  type Bytes = seq<byte>

  const U16: nat := 0x1_0000

  datatype Option<+T> = None | Some(value: T)

  datatype Result<+T, +E> = Ok(value: T) | Err(error: E)

  /** The rest of a concatenation whose first part is not empty. */
  lemma TailOfSum<T>(a: seq<T>, b: seq<T>)
    requires a != []
    ensures (a + b)[0] == a[0] && (a + b)[1..] == a[1..] + b
  {
  }

  lemma SumAssociates<T>(a: seq<T>, b: seq<T>, c: seq<T>)
    ensures a + b + c == a + (b + c)
  {
  }

  lemma SumParts<T>(a: seq<T>, b: seq<T>)
    ensures (a + b)[..|a|] == a && (a + b)[|a|..] == b
  {
  }

  lemma CutSum<T>(x: seq<T>, y: seq<T>, k: nat)
    requires k <= |x| + |y|
    ensures (x + y)[..k] == if k < |x| then x[..k] else x + y[..k - |x|]
  {
  }

  /** All chunks, one after the other, with nothing in between. */
  function Concat(chunks: seq<Bytes>): Bytes {
    if chunks == [] then [] else chunks[0] + Concat(chunks[1..])
  }

  lemma {:induction false} ConcatAppend(a: seq<Bytes>, b: seq<Bytes>)
    ensures Concat(a + b) == Concat(a) + Concat(b)
  {
    if a == [] {
      assert a + b == b;
    } else {
      ConcatAppend(a[1..], b);
      TailOfSum(a, b);
      SumAssociates(a[0], Concat(a[1..]), Concat(b));
    }
  }

  /** What holds of 0 and passes on from each number below n holds of all up to n. */
  lemma {:induction false} Upwards(n: nat, holds: nat -> bool, i: nat)
    requires i <= n && holds(0)
    requires forall j: nat :: j < n && holds(j) ==> holds(j + 1)
    ensures holds(i)
  {
    if i == 0 {
    } else {
      Upwards(n, holds, i - 1);
    }
  }

  /** What is there at first never and later exactly when it was there before or has
      just been added is there exactly if it was added at some time. */
  lemma {:induction false} Recorded(n: nat, has: nat -> bool, adds: nat -> bool, i: nat)
    requires i <= n && !has(0)
    requires forall j: nat :: j < n ==> (has(j + 1) <==> has(j) || adds(j))
    ensures has(i) <==> exists j: nat :: j < i && adds(j)
  {
    if i == 0 {
    } else {
      Recorded(n, has, adds, i - 1);
    }
  }

  /** The numbers below n. */
  function Range(n: nat): (s: set<nat>)
    ensures forall i: nat :: i in s <==> i < n
    ensures |s| == n
  {
    if n == 0 then {} else
      var r := Range(n - 1);
      assert (n - 1) !in r;
      r + {n - 1}
  }

  ghost predicate Distinct<T>(s: seq<T>) {
    forall i, j :: 0 <= i < j < |s| ==> s[i] != s[j]
  }

  /** The elements of s as a set. */
  ghost function Elems<T>(s: seq<T>): set<T> {
    set x | x in s
  }

  lemma {:induction false} DistinctCount<T>(s: seq<T>)
    requires Distinct(s)
    ensures |Elems(s)| == |s|
  {
    if s == [] {
    } else {
      DistinctCount(s[1..]);
      assert Elems(s) == Elems(s[1..]) + {s[0]};
      assert s[0] !in s[1..];
    }
  }

  lemma SubsetCount<T>(a: set<T>, b: set<T>)
    requires a <= b
    ensures |a| <= |b|
    ensures |a| == |b| ==> a == b
  {
    assert b == a + (b - a);
  }

  /** Pigeonhole: distinct numbers below n number at most n, and n of them are all of them. */
  lemma Pigeonhole(s: seq<nat>, n: nat)
    requires Distinct(s)
    requires forall x :: x in s ==> x < n
    ensures |s| <= n
    ensures |s| == n ==> forall i: nat :: i < n ==> i in s
  {
    DistinctCount(s);
    SubsetCount(Elems(s), Range(n));
    if |s| == n {
      forall i: nat | i < n ensures i in s {
        assert i in Range(n);
        assert i in Elems(s);
      }
    }
  }

  /** The same with one number barred: n - 1 distinct numbers other than p are all the others. */
  lemma PigeonholeOthers(s: seq<nat>, n: nat, p: nat)
    requires p < n && Distinct(s)
    requires forall x :: x in s ==> x < n && x != p
    ensures |s| <= n - 1
    ensures |s| == n - 1 ==> forall i: nat :: i < n && i != p ==> i in s
  {
    assert p !in s;
    Pigeonhole(s + [p], n);
    if |s| == n - 1 {
      forall i: nat | i < n && i != p ensures i in s {
        assert i in s + [p];
      }
    }
  }

  lemma MultisetTail<T>(s: seq<T>)
    requires s != []
    ensures multiset(s[1..]) == multiset(s) - multiset{s[0]}
  {
    assert s == [s[0]] + s[1..];
  }

  lemma MultisetRemove<T>(s: seq<T>, i: nat)
    requires i < |s|
    ensures multiset(s[..i] + s[i + 1..]) == multiset(s) - multiset{s[i]}
  {
    assert s == s[..i] + [s[i]] + s[i + 1..];
  }

  lemma MultisetMiddle<T>(x: seq<T>, y: seq<T>, z: seq<T>)
    ensures multiset(x + (y + z)) == multiset(y) + multiset(x + z)
  {
  }

  lemma SameMultisetSameElements<T>(a: seq<T>, b: seq<T>)
    requires multiset(a) == multiset(b)
    ensures |a| == |b|
    ensures forall m :: m in a <==> m in b
  {
    assert |multiset(a)| == |a| && |multiset(b)| == |b|;
    forall m ensures m in a <==> m in b {
      assert m in a <==> m in multiset(a);
      assert m in b <==> m in multiset(b);
    }
  }

  lemma {:induction false} DistinctMultiset<T>(s: seq<T>)
    requires Distinct(s)
    ensures forall x :: multiset(s)[x] == if x in s then 1 else 0
  {
    if s == [] {
    } else {
      DistinctMultiset(s[1..]);
      assert s == [s[0]] + s[1..];
      assert s[0] !in s[1..];
    }
  }

  lemma {:induction false} MultisetDistinct<T>(s: seq<T>)
    requires forall x :: multiset(s)[x] <= 1
    ensures Distinct(s)
  {
    forall i, j | 0 <= i < j < |s| ensures s[i] != s[j] {
      assert s == s[..j] + s[j..];
      assert multiset(s) == multiset(s[..j]) + multiset(s[j..]);
      assert s[i] in s[..j] && s[j] in s[j..];
      assert multiset(s[..j])[s[i]] >= 1 && multiset(s[j..])[s[j]] >= 1;
      assert multiset(s)[s[i]] == multiset(s[..j])[s[i]] + multiset(s[j..])[s[i]];
    }
  }
}
