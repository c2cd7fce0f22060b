/** Sequence helpers shared by the views: `Array.prototype.filter`, subsequences, and grouping by key. */
module Seqs {

  /** `s.filter(p)`: the elements of `s` that satisfy `p`, in their original order. */
  function Filter<T>(s: seq<T>, p: T -> bool): (r: seq<T>)
    ensures |r| <= |s|
    ensures forall i :: 0 <= i < |r| ==> p(r[i])
    ensures forall i :: 0 <= i < |r| ==> r[i] in s
    ensures forall i :: 0 <= i < |s| && p(s[i]) ==> s[i] in r
  {
    if s == [] then []
    else if p(s[0]) then [s[0]] + Filter(s[1..], p)
    else Filter(s[1..], p)
  }

  /** `a` is an order-preserving subsequence of `b` (greedy matching decides it). */
  ghost predicate IsSubseq<T>(a: seq<T>, b: seq<T>)
    decreases |b|
  {
    if a == [] then true
    else if b == [] then false
    else if a[0] == b[0] then IsSubseq(a[1..], b[1..])
    else IsSubseq(a, b[1..])
  }

  lemma {:induction false} FilterIsSubseq<T>(s: seq<T>, p: T -> bool)
    ensures IsSubseq(Filter(s, p), s)
  {
    if s != [] {
      FilterIsSubseq(s[1..], p);
      var r := Filter(s[1..], p);
      if p(s[0]) {
        assert Filter(s, p) == [s[0]] + r;
        assert ([s[0]] + r)[1..] == r;
      } else if r != [] {
        assert p(r[0]) && r[0] != s[0];
      }
    }
  }

  /** Every element of a subsequence is an element of the whole. */
  lemma {:induction false} IsSubseqMembers<T>(a: seq<T>, b: seq<T>)
    requires IsSubseq(a, b)
    ensures forall i :: 0 <= i < |a| ==> a[i] in b
    decreases |b|
  {
    if a != [] && b != [] {
      assert b == [b[0]] + b[1..];
      if a[0] == b[0] {
        IsSubseqMembers(a[1..], b[1..]);
        forall i | 0 < i < |a| ensures a[i] in b {
          assert a[i] == a[1..][i - 1];
        }
      } else {
        IsSubseqMembers(a, b[1..]);
      }
    }
  }

  /** Filtering keeps every occurrence of an element that satisfies `p` and none of the others. */
  lemma {:induction false} FilterCounts<T>(s: seq<T>, p: T -> bool)
    ensures forall x :: multiset(Filter(s, p))[x] == if p(x) then multiset(s)[x] else 0
  {
    if s != [] {
      FilterCounts(s[1..], p);
      assert s == [s[0]] + s[1..];
      assert multiset(s) == multiset{s[0]} + multiset(s[1..]);
      if p(s[0]) {
        assert multiset(Filter(s, p)) == multiset{s[0]} + multiset(Filter(s[1..], p));
      }
    }
  }

  /** Filtering with a predicate every element satisfies gives the sequence back. */
  lemma {:induction false} FilterAll<T>(s: seq<T>, p: T -> bool)
    requires forall i :: 0 <= i < |s| ==> p(s[i])
    ensures Filter(s, p) == s
  {
    if s != [] {
      FilterAll(s[1..], p);
      assert [s[0]] + s[1..] == s;
    }
  }

  ghost predicate Distinct<T>(s: seq<T>)
  {
    forall i, j :: 0 <= i < j < |s| ==> s[i] != s[j]
  }

  /** The elements of `s` whose key is `k`: `s.filter(x => key(x) === k)`, one column of a board. */
  function Bucket<T, K(==)>(s: seq<T>, key: T -> K, k: K): (r: seq<T>)
    ensures |r| <= |s|
    ensures forall i :: 0 <= i < |r| ==> key(r[i]) == k
    ensures forall i :: 0 <= i < |r| ==> r[i] in s
    ensures forall i :: 0 <= i < |s| && key(s[i]) == k ==> s[i] in r
  {
    Filter(s, x => key(x) == k)
  }

  lemma BucketIsSubseq<T, K>(s: seq<T>, key: T -> K, k: K)
    ensures IsSubseq(Bucket(s, key, k), s)
  {
    FilterIsSubseq(s, x => key(x) == k);
  }

  lemma {:induction false} IsSubseqRefl<T>(s: seq<T>)
    ensures IsSubseq(s, s)
  {
    if s != [] {
      IsSubseqRefl(s[1..]);
    }
  }

  /** One bucket per key of `ks`, in the order of `ks`. */
  function Buckets<T, K(==)>(s: seq<T>, key: T -> K, ks: seq<K>): (r: seq<seq<T>>)
    ensures |r| == |ks|
    ensures forall i :: 0 <= i < |ks| ==> r[i] == Bucket(s, key, ks[i])
  {
    if ks == [] then [] else [Bucket(s, key, ks[0])] + Buckets(s, key, ks[1..])
  }

  function SumLengths<T>(cols: seq<seq<T>>): nat
  {
    if cols == [] then 0 else |cols[0]| + SumLengths(cols[1..])
  }

  /** The number of elements of `s` whose key is one of `ks`. */
  function KeyCount<T, K(==)>(s: seq<T>, key: T -> K, ks: seq<K>): nat
  {
    if s == [] then 0 else (if key(s[0]) in ks then 1 else 0) + KeyCount(s[1..], key, ks)
  }

  lemma {:induction false} BucketHead<T, K>(s: seq<T>, key: T -> K, k: K)
    requires s != []
    ensures |Bucket(s, key, k)| == (if key(s[0]) == k then 1 else 0) + |Bucket(s[1..], key, k)|
  {
  }

  lemma {:induction false} BucketPlusKeyCount<T, K>(s: seq<T>, key: T -> K, k: K, ks: seq<K>)
    requires k !in ks
    ensures |Bucket(s, key, k)| + KeyCount(s, key, ks) == KeyCount(s, key, [k] + ks)
  {
    if s != [] {
      BucketHead(s, key, k);
      BucketPlusKeyCount(s[1..], key, k, ks);
    }
  }

  /** The columns for distinct keys together hold exactly the elements whose key is one of them. */
  lemma {:induction false} BucketsSum<T, K>(s: seq<T>, key: T -> K, ks: seq<K>)
    requires Distinct(ks)
    ensures SumLengths(Buckets(s, key, ks)) == KeyCount(s, key, ks)
  {
    if ks == [] {
      KeyCountNone(s, key, ks);
    } else {
      assert Distinct(ks[1..]) by {
        forall i, j | 0 <= i < j < |ks[1..]| ensures ks[1..][i] != ks[1..][j] {
          assert ks[1..][i] == ks[i + 1] && ks[1..][j] == ks[j + 1];
        }
      }
      BucketsSum(s, key, ks[1..]);
      assert ks[0] !in ks[1..] by {
        forall i | 0 <= i < |ks[1..]| ensures ks[1..][i] != ks[0] {
          assert ks[1..][i] == ks[i + 1];
        }
      }
      BucketPlusKeyCount(s, key, ks[0], ks[1..]);
      assert [ks[0]] + ks[1..] == ks;
    }
  }

  lemma {:induction false} KeyCountNone<T, K>(s: seq<T>, key: T -> K, ks: seq<K>)
    requires ks == []
    ensures KeyCount(s, key, ks) == 0
  {
    if s != [] {
      KeyCountNone(s[1..], key, ks);
    }
  }

  /** When every key lies in `ks`, every element is counted. */
  lemma {:induction false} KeyCountAll<T, K>(s: seq<T>, key: T -> K, ks: seq<K>)
    requires forall i :: 0 <= i < |s| ==> key(s[i]) in ks
    ensures KeyCount(s, key, ks) == |s|
  {
    if s != [] {
      KeyCountAll(s[1..], key, ks);
    }
  }
}
