/**
 * Counting by key as the charts do it: a `reduce` that bumps `acc[key]` in a
 * record, whose entries come back in insertion order, and a stable sort of those
 * entries by count, largest first (`Array.prototype.sort` is stable).
 */
module Counting {

  /** One `[name, count]` pair of `Object.entries`. */
  datatype Entry<K> = Entry(key: K, count: nat)

  /** The position of `k` among the entries, or -1. */
  function KeyIndex<K(==)>(t: seq<Entry<K>>, k: K): (r: int)
    ensures -1 <= r < |t|
    ensures r >= 0 ==> t[r].key == k && forall j :: 0 <= j < r ==> t[j].key != k
    ensures r < 0 ==> forall j :: 0 <= j < |t| ==> t[j].key != k
  {
    if t == [] then -1
    else if t[0].key == k then 0
    else
      var r := KeyIndex(t[1..], k);
      if r < 0 then -1 else r + 1
  }

  /** `acc[key] = (acc[key] || 0) + 1`: a new key goes at the end with count 1, a known key counts one more. */
  function Bump<K(==)>(t: seq<Entry<K>>, k: K): seq<Entry<K>>
  {
    var i := KeyIndex(t, k);
    if i < 0 then t + [Entry(k, 1)] else t[i := Entry(k, t[i].count + 1)]
  }

  /** The record the `reduce` builds from the keys of `s`, as its list of entries. */
  function Tally<K(==)>(s: seq<K>): seq<Entry<K>>
  {
    if s == [] then [] else Bump(Tally(s[..|s| - 1]), s[|s| - 1])
  }

  ghost predicate DistinctKeys<K>(t: seq<Entry<K>>)
  {
    forall i, j :: 0 <= i < j < |t| ==> t[i].key != t[j].key
  }

  function SumCounts<K>(t: seq<Entry<K>>): nat
  {
    if t == [] then 0 else t[0].count + SumCounts(t[1..])
  }

  lemma {:induction false} SumCountsAppend<K>(t: seq<Entry<K>>, e: Entry<K>)
    ensures SumCounts(t + [e]) == SumCounts(t) + e.count
  {
    if t == [] {
      assert t + [e] == [e];
    } else {
      assert (t + [e])[1..] == t[1..] + [e];
      SumCountsAppend(t[1..], e);
    }
  }

  lemma {:induction false} SumCountsUpdate<K>(t: seq<Entry<K>>, i: nat, e: Entry<K>)
    requires i < |t|
    ensures SumCounts(t[i := e]) + t[i].count == SumCounts(t) + e.count
  {
    if i > 0 {
      assert t[i := e][1..] == t[1..][i - 1 := e];
      SumCountsUpdate(t[1..], i - 1, e);
    }
  }

  /**
   * `t` is the record of the keys of `s`: each key of `s` once, with the number
   * of times it occurs (so at least 1), no other key, and counts adding up to `|s|`.
   */
  ghost predicate CountsOf<K>(t: seq<Entry<K>>, s: seq<K>)
  {
    DistinctKeys(t) &&
    (forall i :: 0 <= i < |t| ==> t[i].count == multiset(s)[t[i].key] && t[i].count >= 1) &&
    (forall j :: 0 <= j < |s| ==> KeyIndex(t, s[j]) >= 0) &&
    SumCounts(t) == |s|
  }

  lemma {:induction false} BumpNewKey<K>(t: seq<Entry<K>>, p: seq<K>, x: K)
    requires CountsOf(t, p)
    requires KeyIndex(t, x) < 0
    ensures CountsOf(Bump(t, x), p + [x])
  {
    var s := p + [x];
    var r := t + [Entry(x, 1)];
    assert multiset(s) == multiset(p) + multiset{x};
    forall j | 0 <= j < |p| ensures p[j] != x {
      assert KeyIndex(t, p[j]) >= 0;
    }
    assert x !in p;
    SumCountsAppend(t, Entry(x, 1));
    forall j | 0 <= j < |s| ensures KeyIndex(r, s[j]) >= 0 {
      if j < |p| {
        assert s[j] == p[j];
        assert r[KeyIndex(t, p[j])].key == p[j];
      } else {
        assert r[|t|].key == x;
      }
    }
  }

  lemma {:induction false} BumpKnownIs<K>(t: seq<Entry<K>>, x: K)
    requires KeyIndex(t, x) >= 0
    ensures Bump(t, x) == t[KeyIndex(t, x) := Entry(x, t[KeyIndex(t, x)].count + 1)]
  {
  }

  lemma {:induction false} BumpKnownKey<K>(t: seq<Entry<K>>, p: seq<K>, x: K)
    requires CountsOf(t, p)
    requires KeyIndex(t, x) >= 0
    ensures CountsOf(Bump(t, x), p + [x])
  {
    BumpKnownDistinct(t, p, x);
    BumpKnownExact(t, p, x);
    BumpKnownCover(t, p, x);
    BumpKnownSum(t, p, x);
  }

  lemma {:induction false} BumpKnownDistinct<K>(t: seq<Entry<K>>, p: seq<K>, x: K)
    requires CountsOf(t, p)
    requires KeyIndex(t, x) >= 0
    ensures DistinctKeys(Bump(t, x))
  {
    var i := KeyIndex(t, x);
    var r := t[i := Entry(x, t[i].count + 1)];
    BumpKnownIs(t, x);
    BumpKnownCounts(t, p, x, i, r);
  }

  lemma {:induction false} BumpKnownExact<K>(t: seq<Entry<K>>, p: seq<K>, x: K)
    requires CountsOf(t, p)
    requires KeyIndex(t, x) >= 0
    ensures forall j :: 0 <= j < |Bump(t, x)| ==> Bump(t, x)[j].count == multiset(p + [x])[Bump(t, x)[j].key] && Bump(t, x)[j].count >= 1
  {
    var i := KeyIndex(t, x);
    var r := t[i := Entry(x, t[i].count + 1)];
    BumpKnownIs(t, x);
    BumpKnownCounts(t, p, x, i, r);
  }

  lemma {:induction false} BumpKnownCover<K>(t: seq<Entry<K>>, p: seq<K>, x: K)
    requires CountsOf(t, p)
    requires KeyIndex(t, x) >= 0
    ensures forall j :: 0 <= j < |p + [x]| ==> KeyIndex(Bump(t, x), (p + [x])[j]) >= 0
  {
    var i := KeyIndex(t, x);
    var r := t[i := Entry(x, t[i].count + 1)];
    BumpKnownIs(t, x);
    BumpKnownCovers(t, p, x, i, r);
  }

  lemma {:induction false} BumpKnownSum<K>(t: seq<Entry<K>>, p: seq<K>, x: K)
    requires SumCounts(t) == |p|
    requires KeyIndex(t, x) >= 0
    ensures SumCounts(Bump(t, x)) == |p + [x]|
  {
    var i := KeyIndex(t, x);
    BumpKnownIs(t, x);
    SumCountsUpdate(t, i, Entry(x, t[i].count + 1));
  }

  lemma {:induction false} BumpKnownCounts<K>(t: seq<Entry<K>>, p: seq<K>, x: K, i: int, r: seq<Entry<K>>)
    requires CountsOf(t, p)
    requires i == KeyIndex(t, x) >= 0
    requires r == t[i := Entry(x, t[i].count + 1)]
    ensures DistinctKeys(r)
    ensures forall j :: 0 <= j < |r| ==> r[j].count == multiset(p + [x])[r[j].key] && r[j].count >= 1
  {
    var s := p + [x];
    assert multiset(s) == multiset(p) + multiset{x};
    forall a, b | 0 <= a < b < |r| ensures r[a].key != r[b].key {
      assert r[a].key == t[a].key && r[b].key == t[b].key;
    }
    forall j | 0 <= j < |r| ensures r[j].count == multiset(s)[r[j].key] && r[j].count >= 1 {
      if j == i {
        assert r[j].count == multiset(p)[x] + 1;
      } else {
        assert r[j] == t[j] && t[j].key != x;
        assert multiset(s)[t[j].key] == multiset(p)[t[j].key];
      }
    }
  }

  lemma {:induction false} BumpKnownCovers<K>(t: seq<Entry<K>>, p: seq<K>, x: K, i: int, r: seq<Entry<K>>)
    requires forall j :: 0 <= j < |p| ==> KeyIndex(t, p[j]) >= 0
    requires i == KeyIndex(t, x) >= 0
    requires r == t[i := Entry(x, t[i].count + 1)]
    ensures forall j :: 0 <= j < |p + [x]| ==> KeyIndex(r, (p + [x])[j]) >= 0
  {
    var s := p + [x];
    forall j | 0 <= j < |s| ensures KeyIndex(r, s[j]) >= 0 {
      if j < |p| {
        assert s[j] == p[j];
        var m := KeyIndex(t, p[j]);
        assert r[m].key == t[m].key;
      } else {
        assert r[i].key == x;
      }
    }
  }

  /** The record the `reduce` builds holds exactly the counts of the keys of `s`. */
  lemma {:induction false} TallyCorrect<K>(s: seq<K>)
    ensures CountsOf(Tally(s), s)
  {
    if s != [] {
      var p := s[..|s| - 1];
      var x := s[|s| - 1];
      assert s == p + [x];
      TallyCorrect(p);
      if KeyIndex(Tally(p), x) < 0 {
        BumpNewKey(Tally(p), p, x);
      } else {
        BumpKnownKey(Tally(p), p, x);
      }
    }
  }

  /** Every counted key occurs in `s`. */
  lemma {:induction false} CountsOfKeys<K>(t: seq<Entry<K>>, s: seq<K>)
    requires CountsOf(t, s)
    ensures forall i :: 0 <= i < |t| ==> t[i].key in s
  {
    forall i | 0 <= i < |t| ensures t[i].key in s {
      assert t[i].key in multiset(s);
    }
  }

  /** The `reduce` loop: scans the record for the key, then bumps or appends it. */
  method CountByKey<K(==)>(s: seq<K>) returns (acc: seq<Entry<K>>)
    ensures acc == Tally(s)
  {
    acc := [];
    var n := 0;
    while n < |s|
      invariant 0 <= n <= |s|
      invariant acc == Tally(s[..n])
    {
      var key := s[n];
      var i := 0;
      while i < |acc| && acc[i].key != key
        invariant 0 <= i <= |acc|
        invariant forall j :: 0 <= j < i ==> acc[j].key != key
      {
        i := i + 1;
      }
      if i < |acc| {
        acc := acc[i := Entry(key, acc[i].count + 1)];
      } else {
        acc := acc + [Entry(key, 1)];
      }
      assert s[..n + 1][..n] == s[..n];
      n := n + 1;
    }
    assert s[..|s|] == s;
  }

  /** The index of the first occurrence of `k` in `s`, or `|s|` when `k` does not occur. */
  function FirstPos<K(==)>(s: seq<K>, k: K): (r: nat)
    ensures r <= |s|
    ensures r < |s| <==> k in s
    ensures r < |s| ==> s[r] == k
    ensures forall j :: 0 <= j < r ==> s[j] != k
  {
    if s == [] then 0 else if s[0] == k then 0 else 1 + FirstPos(s[1..], k)
  }

  /** The keys of `t` come in the order in which they first occur in `s`. */
  ghost predicate FirstSeenOrder<K>(t: seq<Entry<K>>, s: seq<K>)
  {
    forall i, j :: 0 <= i < j < |t| ==> FirstPos(s, t[i].key) < FirstPos(s, t[j].key)
  }

  /** Appending to `s` moves no first occurrence of a key already in it. */
  lemma FirstPosAppend<K>(p: seq<K>, x: K, k: K)
    requires k in p
    ensures FirstPos(p + [x], k) == FirstPos(p, k)
  {
    var a := FirstPos(p, k);
    var b := FirstPos(p + [x], k);
    assert (p + [x])[a] == k;
    assert (p + [x])[b] == k;
  }

  /** A key new to `p` first occurs, in `p + [x]`, at the end. */
  lemma FirstPosNew<K>(p: seq<K>, x: K)
    requires x !in p
    ensures FirstPos(p + [x], x) == |p|
  {
    assert (p + [x])[|p|] == x;
  }

  /** `Tally(s)` lists its keys in the order in which they first occur in `s`. */
  lemma {:induction false} TallyOrder<K>(s: seq<K>)
    ensures FirstSeenOrder(Tally(s), s)
  {
    if s != [] {
      var p := s[..|s| - 1];
      var x := s[|s| - 1];
      assert s == p + [x];
      TallyOrder(p);
      TallyCorrect(p);
      CountsOfKeys(Tally(p), p);
      if KeyIndex(Tally(p), x) < 0 {
        forall j | 0 <= j < |p| ensures p[j] != x {
          assert KeyIndex(Tally(p), p[j]) >= 0;
        }
        assert Tally(s) == Tally(p) + [Entry(x, 1)];
        BumpNewOrder(Tally(p), p, x);
      } else {
        BumpKnownOrder(Tally(p), p, x);
      }
    }
  }

  /** Bumping a key already counted keeps the first-seen order. */
  lemma BumpKnownOrder<K>(t: seq<Entry<K>>, p: seq<K>, x: K)
    requires FirstSeenOrder(t, p)
    requires forall i :: 0 <= i < |t| ==> t[i].key in p
    requires KeyIndex(t, x) >= 0
    ensures FirstSeenOrder(Bump(t, x), p + [x])
  {
    var r := Bump(t, x);
    BumpKnownIs(t, x);
    forall m | 0 <= m < |r| ensures r[m].key == t[m].key && FirstPos(p + [x], r[m].key) == FirstPos(p, t[m].key) {
      FirstPosAppend(p, x, t[m].key);
    }
  }

  /** Counting a key for the first time appends it, after every key seen before. */
  lemma BumpNewOrder<K>(t: seq<Entry<K>>, p: seq<K>, x: K)
    requires FirstSeenOrder(t, p)
    requires forall i :: 0 <= i < |t| ==> t[i].key in p
    requires x !in p
    ensures FirstSeenOrder(t + [Entry(x, 1)], p + [x])
  {
    var r := t + [Entry(x, 1)];
    var s := p + [x];
    FirstPosNew(p, x);
    forall m | 0 <= m < |t| ensures FirstPos(s, t[m].key) == FirstPos(p, t[m].key) < |p| {
      FirstPosAppend(p, x, t[m].key);
    }
    forall a, b | 0 <= a < b < |r| ensures FirstPos(s, r[a].key) < FirstPos(s, r[b].key) {
      assert r[a] == t[a];
      if b < |t| {
        assert r[b] == t[b];
      }
    }
  }

  // ------------------------------------------------------------ sorting

  /** Places `e` after every entry whose count is at least its own. */
  function InsertByCount<K>(t: seq<Entry<K>>, e: Entry<K>): seq<Entry<K>>
  {
    if t == [] then [e]
    else if t[0].count >= e.count then [t[0]] + InsertByCount(t[1..], e)
    else [e] + t
  }

  /** `.sort((a, b) => b.count - a.count)`: an insertion sort, which keeps equal counts in their order. */
  function SortByCountDesc<K>(t: seq<Entry<K>>): seq<Entry<K>>
  {
    if t == [] then [] else InsertByCount(SortByCountDesc(t[..|t| - 1]), t[|t| - 1])
  }

  ghost predicate SortedDesc<K>(t: seq<Entry<K>>)
  {
    forall i, j :: 0 <= i < j < |t| ==> t[i].count >= t[j].count
  }

  /** The entries with count `c`, in order. */
  function WithCount<K>(t: seq<Entry<K>>, c: nat): seq<Entry<K>>
  {
    if t == [] then [] else (if t[0].count == c then [t[0]] else []) + WithCount(t[1..], c)
  }

  lemma {:induction false} SortedTail<K>(t: seq<Entry<K>>)
    requires t != [] && SortedDesc(t)
    ensures SortedDesc(t[1..])
  {
    forall i, j | 0 <= i < j < |t[1..]| ensures t[1..][i].count >= t[1..][j].count {
      assert t[1..][i] == t[i + 1] && t[1..][j] == t[j + 1];
    }
  }

  lemma {:induction false} InsertByCountContents<K>(t: seq<Entry<K>>, e: Entry<K>)
    ensures multiset(InsertByCount(t, e)) == multiset(t) + multiset{e}
    ensures SumCounts(InsertByCount(t, e)) == SumCounts(t) + e.count
  {
    if t != [] {
      if t[0].count >= e.count {
        InsertByCountContents(t[1..], e);
        assert t == [t[0]] + t[1..];
        var r := [t[0]] + InsertByCount(t[1..], e);
        assert r[1..] == InsertByCount(t[1..], e);
      } else {
        assert ([e] + t)[1..] == t;
      }
    }
  }

  /** Every entry of the result is the inserted one or an entry of `t`. */
  lemma {:induction false} InsertByCountMembers<K>(t: seq<Entry<K>>, e: Entry<K>)
    ensures forall i :: 0 <= i < |InsertByCount(t, e)| ==> InsertByCount(t, e)[i] == e || InsertByCount(t, e)[i] in t
  {
    if t != [] && t[0].count >= e.count {
      InsertByCountMembers(t[1..], e);
      var rest := InsertByCount(t[1..], e);
      var r := [t[0]] + rest;
      forall i | 0 <= i < |r| ensures r[i] == e || r[i] in t {
        if i > 0 {
          assert r[i] == rest[i - 1];
        }
      }
    }
  }

  lemma {:induction false} InsertByCountSorted<K>(t: seq<Entry<K>>, e: Entry<K>)
    requires SortedDesc(t)
    ensures SortedDesc(InsertByCount(t, e))
  {
    if t != [] && t[0].count >= e.count {
      var rest := InsertByCount(t[1..], e);
      SortedTail(t);
      InsertByCountSorted(t[1..], e);
      InsertByCountMembers(t[1..], e);
      var r := [t[0]] + rest;
      forall j | 0 <= j < |rest| ensures t[0].count >= rest[j].count {
        if rest[j] != e {
          var k :| 0 <= k < |t[1..]| && t[1..][k] == rest[j];
          assert t[k + 1] == rest[j];
        }
      }
      forall i, j | 0 <= i < j < |r| ensures r[i].count >= r[j].count {
        if i == 0 {
          assert r[j] == rest[j - 1];
        } else {
          assert r[i] == rest[i - 1] && r[j] == rest[j - 1];
        }
      }
    }
  }

  /** Equal counts keep their relative order when an entry is put in its place. */
  lemma {:induction false} InsertByCountStable<K>(t: seq<Entry<K>>, e: Entry<K>, c: nat)
    requires SortedDesc(t)
    ensures WithCount(InsertByCount(t, e), c) == WithCount(t, c) + (if e.count == c then [e] else [])
  {
    var own := if e.count == c then [e] else [];
    if t == [] {
      WithCountCons(e, [], c);
    } else if t[0].count >= e.count {
      SortedTail(t);
      InsertByCountStable(t[1..], e, c);
      var rest := InsertByCount(t[1..], e);
      assert InsertByCount(t, e) == [t[0]] + rest;
      WithCountCons(t[0], rest, c);
      var head := if t[0].count == c then [t[0]] else [];
      assert WithCount(t, c) == head + WithCount(t[1..], c);
      assert head + (WithCount(t[1..], c) + own) == (head + WithCount(t[1..], c)) + own;
    } else {
      assert InsertByCount(t, e) == [e] + t;
      WithCountCons(e, t, c);
      if e.count == c {
        forall i | 0 <= i < |t| ensures t[i].count < c {
          if i > 0 {
            assert t[0].count >= t[i].count;
          }
        }
        WithCountNone(t, c);
      }
    }
  }

  lemma WithCountCons<K>(h: Entry<K>, t: seq<Entry<K>>, c: nat)
    ensures WithCount([h] + t, c) == (if h.count == c then [h] else []) + WithCount(t, c)
  {
    assert ([h] + t)[1..] == t;
  }

  lemma {:induction false} WithCountNone<K>(t: seq<Entry<K>>, c: nat)
    requires forall i :: 0 <= i < |t| ==> t[i].count < c
    ensures WithCount(t, c) == []
  {
    if t != [] {
      WithCountNone(t[1..], c);
    }
  }

  lemma {:induction false} WithCountAppend<K>(t: seq<Entry<K>>, e: Entry<K>, c: nat)
    ensures WithCount(t + [e], c) == WithCount(t, c) + (if e.count == c then [e] else [])
  {
    var own := if e.count == c then [e] else [];
    if t == [] {
      assert t + [e] == [e] + [];
      WithCountCons(e, [], c);
    } else {
      var u := t[1..] + [e];
      assert t + [e] == [t[0]] + u;
      WithCountAppend(t[1..], e, c);
      WithCountCons(t[0], u, c);
      var head := if t[0].count == c then [t[0]] else [];
      assert WithCount(t, c) == head + WithCount(t[1..], c);
      assert head + (WithCount(t[1..], c) + own) == (head + WithCount(t[1..], c)) + own;
    }
  }

  /**
   * The sort puts the largest counts first, loses and adds no entry, keeps the
   * total, keeps the entries of each count in their original order, and keeps
   * the keys distinct.
   */
  lemma SortByCountDescSpec<K>(t: seq<Entry<K>>)
    ensures SortedDesc(SortByCountDesc(t))
    ensures multiset(SortByCountDesc(t)) == multiset(t)
    ensures |SortByCountDesc(t)| == |t|
    ensures SumCounts(SortByCountDesc(t)) == SumCounts(t)
    ensures forall c: nat :: WithCount(SortByCountDesc(t), c) == WithCount(t, c)
    ensures DistinctKeys(t) ==> DistinctKeys(SortByCountDesc(t))
  {
    SortSorted(t);
    SortContents(t);
    SortStable(t);
    if DistinctKeys(t) {
      SortDistinct(t);
    }
  }

  lemma {:induction false} SortSorted<K>(t: seq<Entry<K>>)
    ensures SortedDesc(SortByCountDesc(t))
  {
    if t != [] {
      SortSorted(t[..|t| - 1]);
      InsertByCountSorted(SortByCountDesc(t[..|t| - 1]), t[|t| - 1]);
    }
  }

  lemma {:induction false} SortContents<K>(t: seq<Entry<K>>)
    ensures multiset(SortByCountDesc(t)) == multiset(t)
    ensures |SortByCountDesc(t)| == |t|
    ensures SumCounts(SortByCountDesc(t)) == SumCounts(t)
  {
    if t != [] {
      var p := t[..|t| - 1];
      var x := t[|t| - 1];
      assert t == p + [x];
      SortContents(p);
      InsertByCountContents(SortByCountDesc(p), x);
      SumCountsAppend(p, x);
      assert |multiset(SortByCountDesc(t))| == |multiset(t)|;
    }
  }

  lemma {:induction false} SortStable<K>(t: seq<Entry<K>>)
    ensures forall c: nat :: WithCount(SortByCountDesc(t), c) == WithCount(t, c)
  {
    if t != [] {
      var p := t[..|t| - 1];
      var x := t[|t| - 1];
      assert t == p + [x];
      SortStable(p);
      SortSorted(p);
      forall c: nat ensures WithCount(SortByCountDesc(t), c) == WithCount(t, c) {
        InsertByCountStable(SortByCountDesc(p), x, c);
        WithCountAppend(p, x, c);
      }
    }
  }

  lemma {:induction false} SortDistinct<K>(t: seq<Entry<K>>)
    requires DistinctKeys(t)
    ensures DistinctKeys(SortByCountDesc(t))
  {
    if t != [] {
      var p := t[..|t| - 1];
      var x := t[|t| - 1];
      assert DistinctKeys(p) by {
        forall i, j | 0 <= i < j < |p| ensures p[i].key != p[j].key {
          assert p[i] == t[i] && p[j] == t[j];
        }
      }
      SortDistinct(p);
      SortContents(p);
      var sp := SortByCountDesc(p);
      forall i | 0 <= i < |sp| ensures sp[i].key != x.key {
        assert sp[i] in multiset(p);
        var k :| 0 <= k < |p| && p[k] == sp[i];
        assert t[k] == sp[i];
      }
      InsertByCountDistinct(sp, x);
    }
  }

  lemma {:induction false} InsertByCountDistinct<K>(t: seq<Entry<K>>, e: Entry<K>)
    requires DistinctKeys(t)
    requires forall i :: 0 <= i < |t| ==> t[i].key != e.key
    ensures DistinctKeys(InsertByCount(t, e))
    ensures forall i :: 0 <= i < |InsertByCount(t, e)| ==> InsertByCount(t, e)[i] == e || InsertByCount(t, e)[i] in t
  {
    if t != [] {
      var r := InsertByCount(t, e);
      if t[0].count >= e.count {
        assert DistinctKeys(t[1..]) by {
          forall i, j | 0 <= i < j < |t[1..]| ensures t[1..][i].key != t[1..][j].key {
            assert t[1..][i] == t[i + 1] && t[1..][j] == t[j + 1];
          }
        }
        InsertByCountDistinct(t[1..], e);
        var rest := InsertByCount(t[1..], e);
        forall i | 0 <= i < |r| ensures r[i] == e || r[i] in t {
          if i > 0 {
            assert r[i] == rest[i - 1];
          }
        }
        forall j | 0 <= j < |rest| ensures rest[j].key != t[0].key {
          if rest[j] != e {
            var k :| 0 <= k < |t[1..]| && t[1..][k] == rest[j];
            assert t[k + 1] == rest[j];
          }
        }
        forall i, j | 0 <= i < j < |r| ensures r[i].key != r[j].key {
          if i == 0 {
            assert r[j] == rest[j - 1];
          } else {
            assert r[i] == rest[i - 1] && r[j] == rest[j - 1];
          }
        }
      } else {
        forall i, j | 0 <= i < j < |r| ensures r[i].key != r[j].key {
          if i > 0 {
            assert r[i] == t[i - 1];
          }
          assert r[j] == t[j - 1];
        }
      }
    }
  }

  /** The keys of the entries, as a set. */
  function KeySet<K>(t: seq<Entry<K>>): set<K>
  {
    if t == [] then {} else {t[0].key} + KeySet(t[1..])
  }

  /** Distinct keys make as many keys as entries. */
  lemma {:induction false} KeySetSize<K>(t: seq<Entry<K>>)
    requires DistinctKeys(t)
    ensures |KeySet(t)| == |t|
  {
    if t != [] {
      assert DistinctKeys(t[1..]) by {
        forall i, j | 0 <= i < j < |t[1..]| ensures t[1..][i].key != t[1..][j].key {
          assert t[1..][i] == t[i + 1] && t[1..][j] == t[j + 1];
        }
      }
      KeySetSize(t[1..]);
      forall i | 0 <= i < |t[1..]| ensures t[1..][i].key != t[0].key {
        assert t[1..][i] == t[i + 1];
      }
      KeySetWithout(t[1..], t[0].key);
    }
  }

  lemma {:induction false} KeySetWithout<K>(t: seq<Entry<K>>, k: K)
    requires forall i :: 0 <= i < |t| ==> t[i].key != k
    ensures k !in KeySet(t)
  {
    if t != [] {
      KeySetWithout(t[1..], k);
    }
  }

  /** Keys drawn from `ks` make a key set inside `ks`. */
  lemma {:induction false} KeySetWithin<K>(t: seq<Entry<K>>, ks: set<K>)
    requires forall i :: 0 <= i < |t| ==> t[i].key in ks
    ensures KeySet(t) <= ks
  {
    if t != [] {
      KeySetWithin(t[1..], ks);
    }
  }

  /** Distinct keys drawn from `ks` are at most `|ks|` entries. */
  lemma {:induction false} DistinctKeysBound<K>(t: seq<Entry<K>>, ks: set<K>)
    requires DistinctKeys(t)
    requires forall i :: 0 <= i < |t| ==> t[i].key in ks
    ensures |t| <= |ks|
  {
    KeySetSize(t);
    KeySetWithin(t, ks);
    SubsetSize(KeySet(t), ks);
  }

  lemma {:induction false} SubsetSize<K>(a: set<K>, b: set<K>)
    requires a <= b
    ensures |a| <= |b|
  {
    assert b == a + (b - a);
  }

  /** Entries of equal count come in the order in which their keys first occur in `s`. */
  ghost predicate TiesFirstSeen<K>(t: seq<Entry<K>>, s: seq<K>)
  {
    forall i, j :: 0 <= i < j < |t| && t[i].count == t[j].count ==> FirstPos(s, t[i].key) < FirstPos(s, t[j].key)
  }

  /** Inserting an entry whose key occurs later than every key of `t` keeps ties in first-seen order. */
  lemma {:induction false} InsertByCountTies<K>(t: seq<Entry<K>>, e: Entry<K>, s: seq<K>)
    requires SortedDesc(t) && TiesFirstSeen(t, s)
    requires forall i :: 0 <= i < |t| ==> FirstPos(s, t[i].key) < FirstPos(s, e.key)
    ensures TiesFirstSeen(InsertByCount(t, e), s)
  {
    if t != [] {
      if t[0].count >= e.count {
        SortedTail(t);
        TiesTail(t, s);
        InsertByCountTies(t[1..], e, s);
        InsertByCountMembers(t[1..], e);
        TiesCons(t[0], t[1..], e, InsertByCount(t[1..], e), s);
      } else {
        TiesFront(t, e, s);
      }
    }
  }

  lemma TiesTail<K>(t: seq<Entry<K>>, s: seq<K>)
    requires t != [] && TiesFirstSeen(t, s)
    ensures TiesFirstSeen(t[1..], s)
  {
    var tail := t[1..];
    forall a, b | 0 <= a < b < |tail| && tail[a].count == tail[b].count
      ensures FirstPos(s, tail[a].key) < FirstPos(s, tail[b].key)
    {
      assert tail[a] == t[a + 1] && tail[b] == t[b + 1];
    }
  }

  /** An entry placed before a rest drawn from `tail` and `e` keeps ties in order. */
  lemma TiesCons<K>(h: Entry<K>, tail: seq<Entry<K>>, e: Entry<K>, rest: seq<Entry<K>>, s: seq<K>)
    requires TiesFirstSeen([h] + tail, s) && TiesFirstSeen(rest, s)
    requires FirstPos(s, h.key) < FirstPos(s, e.key)
    requires forall i :: 0 <= i < |rest| ==> rest[i] == e || rest[i] in tail
    ensures TiesFirstSeen([h] + rest, s)
  {
    var r := [h] + rest;
    forall i | 0 <= i < |rest| && rest[i].count == h.count ensures FirstPos(s, h.key) < FirstPos(s, rest[i].key) {
      if rest[i] != e {
        TiesHead(h, tail, rest[i], s);
      }
    }
    forall a, b | 0 <= a < b < |r| && r[a].count == r[b].count
      ensures FirstPos(s, r[a].key) < FirstPos(s, r[b].key)
    {
      assert r[b] == rest[b - 1];
      if a > 0 {
        assert r[a] == rest[a - 1];
      }
    }
  }

  /** The head of a record ties in order with every later entry of equal count. */
  lemma TiesHead<K>(h: Entry<K>, tail: seq<Entry<K>>, x: Entry<K>, s: seq<K>)
    requires TiesFirstSeen([h] + tail, s)
    requires x in tail && x.count == h.count
    ensures FirstPos(s, h.key) < FirstPos(s, x.key)
  {
    var t := [h] + tail;
    var m :| 0 <= m < |tail| && tail[m] == x;
    assert t[0] == h && t[m + 1] == x;
  }

  /** An entry of larger count than all of a sorted `t`, placed first, ties with nothing. */
  lemma TiesFront<K>(t: seq<Entry<K>>, e: Entry<K>, s: seq<K>)
    requires t != [] && SortedDesc(t) && TiesFirstSeen(t, s)
    requires t[0].count < e.count
    ensures TiesFirstSeen([e] + t, s)
  {
    var r := [e] + t;
    forall b | 0 < b < |r| ensures r[b].count < r[0].count {
      assert r[b] == t[b - 1];
      assert t[0].count >= t[b - 1].count;
    }
    forall a, b | 0 < a < b < |r| && r[a].count == r[b].count
      ensures FirstPos(s, r[a].key) < FirstPos(s, r[b].key)
    {
      assert r[a] == t[a - 1] && r[b] == t[b - 1];
    }
  }

  /** Sorting a record in first-seen order keeps entries of equal count in that order. */
  lemma {:induction false} SortTies<K>(t: seq<Entry<K>>, s: seq<K>)
    requires FirstSeenOrder(t, s)
    ensures TiesFirstSeen(SortByCountDesc(t), s)
  {
    if t != [] {
      var p := t[..|t| - 1];
      var x := t[|t| - 1];
      forall a, b | 0 <= a < b < |p| ensures FirstPos(s, p[a].key) < FirstPos(s, p[b].key) {
        assert p[a] == t[a] && p[b] == t[b];
      }
      SortTies(p, s);
      SortSorted(p);
      SortMembers(p);
      var sp := SortByCountDesc(p);
      forall i | 0 <= i < |sp| ensures FirstPos(s, sp[i].key) < FirstPos(s, x.key) {
        var m :| 0 <= m < |p| && p[m] == sp[i];
        assert t[m] == sp[i];
      }
      InsertByCountTies(sp, x, s);
    }
  }

  /** The record of the keys of `s`, largest count first. */
  function Ranking<K(==)>(s: seq<K>): seq<Entry<K>>
  {
    SortByCountDesc(Tally(s))
  }

  /**
   * The ranking lists every key of `s` once, with the number of times it
   * occurs, largest first; ties keep the order in which their keys first
   * occur; and the counts add up to `|s|`.
   */
  lemma RankingSpec<K>(s: seq<K>)
    ensures SortedDesc(Ranking(s)) && DistinctKeys(Ranking(s))
    ensures forall i :: 0 <= i < |Ranking(s)| ==>
      Ranking(s)[i].count == multiset(s)[Ranking(s)[i].key] && Ranking(s)[i].count >= 1
    ensures forall i :: 0 <= i < |Ranking(s)| ==> Ranking(s)[i].key in s
    ensures forall j :: 0 <= j < |s| ==> exists i :: 0 <= i < |Ranking(s)| && Ranking(s)[i].key == s[j]
    ensures SumCounts(Ranking(s)) == |s|
    ensures forall c: nat :: WithCount(Ranking(s), c) == WithCount(Tally(s), c)
    ensures TiesFirstSeen(Ranking(s), s)
  {
    TallyOrder(s);
    SortTies(Tally(s), s);
    TallyCorrect(s);
    SortSorted(Tally(s));
    SortDistinct(Tally(s));
    SortContents(Tally(s));
    SortStable(Tally(s));
    RankingCounts(s);
    RankingCovers(s);
  }

  lemma RankingCounts<K>(s: seq<K>)
    ensures forall i :: 0 <= i < |Ranking(s)| ==>
      Ranking(s)[i].count == multiset(s)[Ranking(s)[i].key] && Ranking(s)[i].count >= 1 && Ranking(s)[i].key in s
  {
    var t := Tally(s);
    var r := Ranking(s);
    TallyCorrect(s);
    CountsOfKeys(t, s);
    SortMembers(t);
    forall i | 0 <= i < |r| ensures r[i].count == multiset(s)[r[i].key] && r[i].count >= 1 && r[i].key in s {
      var m :| 0 <= m < |t| && t[m] == r[i];
    }
  }

  /** Every entry of the sorted record comes from the record. */
  lemma SortMembers<K>(t: seq<Entry<K>>)
    ensures forall i :: 0 <= i < |SortByCountDesc(t)| ==> exists m :: 0 <= m < |t| && t[m] == SortByCountDesc(t)[i]
  {
    SortContents(t);
    forall i | 0 <= i < |SortByCountDesc(t)| ensures exists m :: 0 <= m < |t| && t[m] == SortByCountDesc(t)[i] {
      assert SortByCountDesc(t)[i] in multiset(t);
    }
  }

  lemma RankingCovers<K>(s: seq<K>)
    ensures forall j :: 0 <= j < |s| ==> exists i :: 0 <= i < |Ranking(s)| && Ranking(s)[i].key == s[j]
  {
    var t := Tally(s);
    var r := Ranking(s);
    TallyCorrect(s);
    SortContents(t);
    forall j | 0 <= j < |s| ensures exists i :: 0 <= i < |r| && r[i].key == s[j] {
      var m := KeyIndex(t, s[j]);
      assert t[m] in multiset(r);
      var i :| 0 <= i < |r| && r[i] == t[m];
    }
  }

  /** Keys drawn from `ks` rank at most `|ks|` entries. */
  lemma RankingBound<K>(s: seq<K>, ks: set<K>)
    requires forall j :: 0 <= j < |s| ==> s[j] in ks
    ensures |Ranking(s)| <= |ks|
  {
    var t := Tally(s);
    TallyCorrect(s);
    CountsOfKeys(t, s);
    assert forall i :: 0 <= i < |t| ==> t[i].key in ks;
    DistinctKeysBound(t, ks);
    SortContents(t);
  }

  /** `.slice(0, 5)`. */
  function TopFive<K>(t: seq<Entry<K>>): (r: seq<Entry<K>>)
    ensures r <= t
    ensures |r| == if |t| < 5 then |t| else 5
  {
    t[..if |t| < 5 then |t| else 5]
  }
}
