/**
 * Insertion-ordered counters and the stable sort by descending count.
 *
 * githubService.ts keeps two plain objects as counters (`langMap`, `monthCounts`),
 * bumps `obj[k] = (obj[k] || 0) + 1` once per item, reads them back with
 * `Object.entries` (insertion order for non-index string keys) and sorts the
 * entries with the comparator `b.count - a.count` using the stable
 * `Array.prototype.sort`. This module states that behaviour once, for any key type.
 */
module Counting {

  /** One `[key, count]` pair of a counter object. */
  datatype Entry<K> = Entry(key: K, count: nat)

  predicate HasKey<K(==)>(es: seq<Entry<K>>, k: K)
  {
    exists i :: 0 <= i < |es| && es[i].key == k
  }

  predicate DistinctKeys<K(==)>(es: seq<Entry<K>>)
  {
    forall i, j :: 0 <= i < j < |es| ==> es[i].key != es[j].key
  }

  /** Position of the first occurrence of k in xs. */
  function FirstIndex<K(==)>(xs: seq<K>, k: K): (i: nat)
    requires k in xs
    ensures i < |xs| && xs[i] == k
    ensures forall j :: 0 <= j < i ==> xs[j] != k
  {
    if xs[0] == k then 0 else 1 + FirstIndex(xs[1..], k)
  }

  /** `obj[k] = (obj[k] || 0) + 1` on a counter read as its entry list. */
  function Bump<K(==)>(es: seq<Entry<K>>, k: K): (r: seq<Entry<K>>)
    ensures HasKey(es, k) ==> |r| == |es|
    ensures !HasKey(es, k) ==> r == es + [Entry(k, 1)]
    ensures forall i :: 0 <= i < |es| ==> r[i].key == es[i].key
    ensures DistinctKeys(es) ==> DistinctKeys(r)
    ensures DistinctKeys(es) ==>
      forall i :: 0 <= i < |es| ==> r[i].count == if es[i].key == k then es[i].count + 1 else es[i].count
    decreases |es|, 1
  {
    if es == [] then [Entry(k, 1)]
    else if es[0].key == k then [Entry(k, es[0].count + 1)] + es[1..]
    else
      BumpTail(es, k);
      [es[0]] + Bump(es[1..], k)
  }

  /** Bumping a key other than the first one: the tail knows the key, and brings no copy of the first key. */
  lemma BumpTail<K>(es: seq<Entry<K>>, k: K)
    requires es != [] && es[0].key != k
    ensures HasKey(es, k) <==> HasKey(es[1..], k)
    ensures DistinctKeys(es) ==> forall i :: 0 <= i < |Bump(es[1..], k)| ==> Bump(es[1..], k)[i].key != es[0].key
    decreases |es|, 0
  {
    if HasKey(es, k) {
      var i :| 0 <= i < |es| && es[i].key == k;
      assert es[1..][i - 1].key == k;
    }
    var rest := Bump(es[1..], k);
    if DistinctKeys(es) {
      forall i | 0 <= i < |rest| ensures rest[i].key != es[0].key {
        if i < |es| - 1 {
          assert es[1..][i].key == es[i + 1].key;
        }
      }
    }
  }

  /** The counter after feeding it xs in order. */
  function Tally<K(==,!new)>(xs: seq<K>): (es: seq<Entry<K>>)
    ensures DistinctKeys(es)
    ensures forall k :: HasKey(es, k) <==> k in xs
    ensures forall i :: 0 <= i < |es| ==> es[i].count == multiset(xs)[es[i].key]
    decreases |xs|
  {
    if xs == [] then []
    else
      var init, x := xs[..|xs| - 1], xs[|xs| - 1];
      assert xs == init + [x];
      var prev := Tally(init);
      var r := Bump(prev, x);
      assert forall k :: HasKey(r, k) <==> HasKey(prev, k) || k == x by {
        forall k ensures HasKey(r, k) <==> HasKey(prev, k) || k == x {
          if HasKey(prev, k) {
            var i :| 0 <= i < |prev| && prev[i].key == k;
            assert r[i].key == k;
          }
          if HasKey(r, k) && k != x {
            var i :| 0 <= i < |r| && r[i].key == k;
            if i < |prev| { assert prev[i].key == k; }
          }
          if k == x && !HasKey(prev, x) {
            assert r[|prev|].key == x;
          }
        }
      }
      assert forall i :: 0 <= i < |r| ==> r[i].count == multiset(xs)[r[i].key] by {
        forall i | 0 <= i < |r| ensures r[i].count == multiset(xs)[r[i].key] {
          if i < |prev| {
            assert r[i].key == prev[i].key;
          } else {
            assert !HasKey(prev, x) && r[i] == Entry(x, 1);
            assert x !in init;
          }
        }
      }
      r
  }

  /** Feeding one more item bumps its key. */
  lemma TallySnoc<K(!new)>(xs: seq<K>, x: K)
    ensures Tally(xs + [x]) == Bump(Tally(xs), x)
  {
    assert (xs + [x])[..|xs|] == xs;
  }

  /** Counter entries appear in the order their keys were first seen. */
  lemma {:induction false} TallyFirstSeen<K(!new)>(xs: seq<K>)
    ensures forall i, j :: 0 <= i < j < |Tally(xs)| ==>
      FirstIndex(xs, Tally(xs)[i].key) < FirstIndex(xs, Tally(xs)[j].key)
    decreases |xs|
  {
    if xs != [] {
      var init, x := xs[..|xs| - 1], xs[|xs| - 1];
      assert xs == init + [x];
      TallyFirstSeen(init);
      TallySnoc(init, x);
      var prev := Tally(init);
      forall i | 0 <= i < |prev| ensures prev[i].key in init {
        assert HasKey(prev, prev[i].key);
      }
      forall i, j | 0 <= i < j < |Tally(xs)|
        ensures FirstIndex(xs, Tally(xs)[i].key) < FirstIndex(xs, Tally(xs)[j].key)
      {
        BumpFirstSeen(init, x, prev, i, j);
      }
    }
  }

  /**
   * One item more: a counter whose keys are the items seen, in first-seen
   * order, keeps its keys in first-seen order after it is bumped.
   */
  lemma BumpFirstSeen<K(!new)>(init: seq<K>, x: K, prev: seq<Entry<K>>, i: nat, j: nat)
    requires forall k :: HasKey(prev, k) <==> k in init
    requires forall i :: 0 <= i < |prev| ==> prev[i].key in init
    requires forall i, j :: 0 <= i < j < |prev| ==>
      FirstIndex(init, prev[i].key) < FirstIndex(init, prev[j].key)
    requires i < j < |Bump(prev, x)|
    ensures FirstIndex(init + [x], Bump(prev, x)[i].key) < FirstIndex(init + [x], Bump(prev, x)[j].key)
  {
    var r := Bump(prev, x);
    assert i < |prev|;
    assert r[i].key == prev[i].key;
    assert HasKey(prev, prev[i].key);
    FirstIndexExtend(init, x, prev[i].key);
    if j < |prev| {
      assert r[j].key == prev[j].key;
      assert HasKey(prev, prev[j].key);
      FirstIndexExtend(init, x, prev[j].key);
    } else {
      assert !HasKey(prev, x) && r[j].key == x;
      FirstIndexNew(init, x);
    }
  }

  lemma {:induction false} FirstIndexExtend<K>(xs: seq<K>, x: K, k: K)
    requires k in xs
    ensures FirstIndex(xs + [x], k) == FirstIndex(xs, k)
  {
    if xs[0] != k {
      assert (xs + [x])[1..] == xs[1..] + [x];
      FirstIndexExtend(xs[1..], x, k);
    }
  }

  lemma FirstIndexNew<K>(xs: seq<K>, x: K)
    requires x !in xs
    ensures FirstIndex(xs + [x], x) == |xs|
  {
  }

  /** Counts never increase from one entry to the next. */
  predicate SortedByCount<K>(es: seq<Entry<K>>)
  {
    forall i, j :: 0 <= i < j < |es| ==> es[i].count >= es[j].count
  }

  /** The entries with count c, in their order in es. */
  function WithCount<K>(es: seq<Entry<K>>, c: nat): seq<Entry<K>>
  {
    if es == [] then []
    else (if es[0].count == c then [es[0]] else []) + WithCount(es[1..], c)
  }

  /** Places x in front of the first entry whose count does not exceed x's. */
  function Insert<K>(x: Entry<K>, es: seq<Entry<K>>): seq<Entry<K>>
  {
    if es == [] || es[0].count <= x.count then [x] + es
    else [es[0]] + Insert(x, es[1..])
  }

  /** Insertion adds exactly x and keeps a sorted sequence sorted. */
  lemma {:induction false} InsertSpec<K(!new)>(x: Entry<K>, es: seq<Entry<K>>)
    ensures multiset(Insert(x, es)) == multiset(es) + multiset{x}
    ensures forall y :: y in Insert(x, es) <==> y in es || y == x
    ensures SortedByCount(es) ==> SortedByCount(Insert(x, es))
  {
    if es != [] && es[0].count > x.count {
      var rest := Insert(x, es[1..]);
      InsertSpec(x, es[1..]);
      assert es == [es[0]] + es[1..];
      assert Insert(x, es) == [es[0]] + rest;
      assert multiset(Insert(x, es)) == multiset{es[0]} + multiset(rest);
      if SortedByCount(es) {
        InsertSortedCons(x, es, rest);
      }
    }
  }

  /** The first entry counts at least as much as anything the insertion into the tail produced. */
  lemma InsertSortedCons<K>(x: Entry<K>, es: seq<Entry<K>>, rest: seq<Entry<K>>)
    requires es != [] && es[0].count > x.count && SortedByCount(es)
    requires SortedByCount(rest)
    requires forall y :: y in rest <==> y in es[1..] || y == x
    ensures SortedByCount([es[0]] + rest)
  {
    var r := [es[0]] + rest;
    forall i, j | 0 <= i < j < |r| ensures r[i].count >= r[j].count {
      if i == 0 {
        assert r[j] == rest[j - 1] && r[j] in rest;
        if r[j] != x {
          var m :| 0 <= m < |es[1..]| && es[1..][m] == r[j];
          assert es[m + 1] == r[j];
        }
      } else {
        assert r[i] == rest[i - 1] && r[j] == rest[j - 1];
      }
    }
  }

  /**
   * The sort of the entries by the comparator `b.count - a.count`: a permutation,
   * by non-increasing count.
   */
  function SortByCount<K(==,!new)>(es: seq<Entry<K>>): (r: seq<Entry<K>>)
    ensures multiset(r) == multiset(es)
    ensures |r| == |es|
    ensures SortedByCount(r)
  {
    if es == [] then []
    else
      assert es == [es[0]] + es[1..];
      InsertSpec(es[0], SortByCount(es[1..]));
      Insert(es[0], SortByCount(es[1..]))
  }

  /** WithCount unfolded on a sequence given as head and tail. */
  lemma WithCountCons<K>(e: Entry<K>, rest: seq<Entry<K>>, c: nat)
    ensures WithCount([e] + rest, c) == (if e.count == c then [e] else []) + WithCount(rest, c)
  {
    assert ([e] + rest)[1..] == rest;
  }

  lemma {:induction false} InsertWithCount<K(!new)>(x: Entry<K>, es: seq<Entry<K>>, c: nat)
    ensures WithCount(Insert(x, es), c) == (if x.count == c then [x] else []) + WithCount(es, c)
  {
    if es == [] || es[0].count <= x.count {
      WithCountCons(x, es, c);
    } else {
      var rest := Insert(x, es[1..]);
      assert Insert(x, es) == [es[0]] + rest;
      WithCountCons(es[0], rest, c);
      assert es == [es[0]] + es[1..];
      WithCountCons(es[0], es[1..], c);
      InsertWithCount(x, es[1..], c);
      if x.count == c {
        assert es[0].count != c;
        assert WithCount(Insert(x, es), c) == [x] + WithCount(es[1..], c);
      } else {
        var head := if es[0].count == c then [es[0]] else [];
        assert WithCount(Insert(x, es), c) == head + WithCount(es[1..], c);
      }
    }
  }

  /** Stability: among entries of equal count, the sorted order is the original order. */
  lemma {:induction false} SortStable<K(!new)>(es: seq<Entry<K>>, c: nat)
    ensures WithCount(SortByCount(es), c) == WithCount(es, c)
  {
    if es != [] {
      SortStable(es[1..], c);
      InsertWithCount(es[0], SortByCount(es[1..]), c);
    }
  }

  /** The first entry of WithCount(es, c) is the earliest entry of es with count c. */
  lemma {:induction false} WithCountHead<K>(es: seq<Entry<K>>, c: nat, i: nat)
    requires i < |es| && es[i].count == c
    requires forall j :: 0 <= j < i ==> es[j].count != c
    ensures WithCount(es, c) != [] && WithCount(es, c)[0] == es[i]
  {
    if i > 0 {
      WithCountHead(es[1..], c, i - 1);
    }
  }
  lemma {:induction false} FirstWithCount<K>(es: seq<Entry<K>>, c: nat, i: nat) returns (f: nat)
    requires i < |es| && es[i].count == c
    ensures f <= i && es[f].count == c
    ensures forall j :: 0 <= j < f ==> es[j].count != c
    decreases i
  {
    if j :| 0 <= j < i && es[j].count == c {
      f := FirstWithCount(es, c, j);
    } else {
      f := i;
    }
  }

  /**
   * The head of the sorted entries is the earliest entry with the largest
   * count: everything before it counts strictly less, nothing counts more.
   */
  lemma SortedHead<K(!new)>(es: seq<Entry<K>>) returns (f: nat)
    requires es != []
    ensures f < |es| && SortByCount(es)[0] == es[f]
    ensures forall e :: e in es ==> e.count <= es[f].count
    ensures forall j :: 0 <= j < f ==> es[j].count < es[f].count
  {
    var sorted := SortByCount(es);
    var c := sorted[0].count;
    forall e | e in es ensures e.count <= c {
      assert e in multiset(sorted);
      var j :| 0 <= j < |sorted| && sorted[j] == e;
    }
    assert sorted[0] in multiset(es);
    var i :| 0 <= i < |es| && es[i] == sorted[0];
    f := FirstWithCount(es, c, i);
    WithCountHead(es, c, f);
    WithCountHead(sorted, c, 0);
    SortStable(es, c);
    forall j | 0 <= j < f ensures es[j].count < es[f].count {
      assert es[j] in es;
    }
  }

  /**
   * k is a most frequent item of xs, and it occurs before every other item
   * that is as frequent.
   */
  predicate IsMode<K(==)>(xs: seq<K>, k: K)
  {
    && k in xs
    && (forall k' :: k' in xs ==> multiset(xs)[k'] <= multiset(xs)[k])
    && (forall k' :: k' in xs && k' != k && multiset(xs)[k'] == multiset(xs)[k] ==>
          FirstIndex(xs, k) < FirstIndex(xs, k'))
  }

  /** The key at the head of the sorted counter is the first-seen most frequent item. */
  lemma TallyMode<K(!new)>(xs: seq<K>) returns (k: K)
    requires xs != []
    ensures SortByCount(Tally(xs)) != [] && SortByCount(Tally(xs))[0].key == k
    ensures IsMode(xs, k)
  {
    var es := Tally(xs);
    var first := TallyEntry(xs, xs[0]);
    var f := SortedHead(es);
    k := es[f].key;
    assert HasKey(es, k);
    assert es[f].count == multiset(xs)[k];
    TallyFirstSeen(xs);
    forall k' | k' in xs ensures multiset(xs)[k'] <= multiset(xs)[k] {
      var j := TallyEntry(xs, k');
      assert es[j] in es;
    }
    forall k' | k' in xs && k' != k && multiset(xs)[k'] == multiset(xs)[k]
      ensures FirstIndex(xs, k) < FirstIndex(xs, k')
    {
      var j := TallyEntry(xs, k');
      assert es[j].count == es[f].count;
      assert es[j].key != es[f].key;
      assert f < j;
    }
  }

  /** Every item of xs has its entry in the counter, holding its number of occurrences. */
  lemma TallyEntry<K(!new)>(xs: seq<K>, k: K) returns (j: nat)
    requires k in xs
    ensures j < |Tally(xs)| && Tally(xs)[j].key == k && Tally(xs)[j].count == multiset(xs)[k]
  {
    assert HasKey(Tally(xs), k);
    j :| 0 <= j < |Tally(xs)| && Tally(xs)[j].key == k;
  }

  predicate NoDuplicates<A(==)>(s: seq<A>)
  {
    forall i, j :: 0 <= i < j < |s| ==> s[i] != s[j]
  }

  /**
   * The elements of s in first-occurrence order: what a JavaScript `Set` holds
   * (and yields, in insertion order) after `add` was called on each element.
   */
  function Distinct<A(==,!new)>(s: seq<A>): (r: seq<A>)
    ensures NoDuplicates(r)
    ensures forall x :: x in r <==> x in s
    ensures |r| <= |s|
    ensures forall i, j :: 0 <= i < j < |r| ==> FirstIndex(s, r[i]) < FirstIndex(s, r[j])
    decreases |s|
  {
    if s == [] then []
    else
      var init, x := s[..|s| - 1], s[|s| - 1];
      assert s == init + [x];
      var prev := Distinct(init);
      DistinctOrderExtend(init, x, prev);
      if x in prev then prev else prev + [x]
  }

  /** Appending x keeps the first-seen order of the distinct values of init, and x, if new, comes last. */
  lemma DistinctOrderExtend<A>(init: seq<A>, x: A, prev: seq<A>)
    requires forall y :: y in prev <==> y in init
    requires forall i, j :: 0 <= i < j < |prev| ==> FirstIndex(init, prev[i]) < FirstIndex(init, prev[j])
    ensures var r := if x in prev then prev else prev + [x];
      forall i, j :: 0 <= i < j < |r| ==> FirstIndex(init + [x], r[i]) < FirstIndex(init + [x], r[j])
  {
    var r := if x in prev then prev else prev + [x];
    forall i, j | 0 <= i < j < |r|
      ensures FirstIndex(init + [x], r[i]) < FirstIndex(init + [x], r[j])
    {
      FirstIndexExtend(init, x, prev[i]);
      if j < |prev| {
        FirstIndexExtend(init, x, prev[j]);
      } else {
        FirstIndexNew(init, x);
      }
    }
  }

  lemma DistinctSnoc<A(!new)>(s: seq<A>, n: nat)
    requires n < |s|
    ensures Distinct(s[..n + 1]) == if s[n] in s[..n] then Distinct(s[..n]) else Distinct(s[..n]) + [s[n]]
  {
    assert s[..n + 1][..n] == s[..n];
  }

  /** Two equally long sequences whose positions agree and disagree together. */
  predicate SameGrouping<A(==), B(==)>(a: seq<A>, b: seq<B>)
  {
    |a| == |b| && forall i, j :: 0 <= i < |a| && 0 <= j < |a| ==> (a[i] == a[j] <==> b[i] == b[j])
  }

  /** Sequences with the same grouping have equally many distinct elements. */
  lemma {:induction false} SameGroupingCount<A(!new), B(!new)>(a: seq<A>, b: seq<B>)
    requires SameGrouping(a, b)
    ensures |Distinct(a)| == |Distinct(b)|
    decreases |a|
  {
    if a != [] {
      var n := |a| - 1;
      var a', b' := a[..n], b[..n];
      assert SameGrouping(a', b') by {
        forall i, j | 0 <= i < n && 0 <= j < n ensures a'[i] == a'[j] <==> b'[i] == b'[j] {
          assert a'[i] == a[i] && a'[j] == a[j] && b'[i] == b[i] && b'[j] == b[j];
        }
      }
      SameGroupingCount(a', b');
      DistinctSnoc(a, n);
      DistinctSnoc(b, n);
      assert a[..n + 1] == a && b[..n + 1] == b;
      if a[n] in a' {
        var i :| 0 <= i < n && a'[i] == a[n];
        assert b'[i] == b[n];
      }
      if b[n] in b' {
        var i :| 0 <= i < n && b'[i] == b[n];
        assert a'[i] == a[n];
      }
    }
  }
}
