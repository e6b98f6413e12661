/**
 * Generic sequence operations that mirror the JavaScript array methods the
 * system relies on: `filter`, de-duplication through a `Set` (which keeps
 * first-insertion order) and a stable descending `sort`.
 */
module Seqs {

  /** No element occurs twice. */
  predicate Distinct<T(==)>(s: seq<T>)
  {
    forall i, j :: 0 <= i < j < |s| ==> s[i] != s[j]
  }

  /** A sequence without repeats has as many distinct elements as it is long. */
  lemma {:induction false} DistinctCardinality<T>(s: seq<T>)
    requires Distinct(s)
    ensures |set x | x in s| == |s|
  {
    if s != [] {
      var t := s[1..];
      assert Distinct(t) by {
        forall i, j | 0 <= i < j < |t| ensures t[i] != t[j] {
          assert t[i] == s[i + 1] && t[j] == s[j + 1];
        }
      }
      DistinctCardinality(t);
      assert s[0] !in t by {
        forall i | 0 <= i < |t| ensures t[i] != s[0] {
          assert t[i] == s[i + 1];
        }
      }
      assert (set x | x in s) == (set x | x in t) + {s[0]} by {
        assert s == [s[0]] + t;
      }
    }
  }

  /** `s.filter(f)`: the elements satisfying `f`, in their original order. */
  function Filter<T>(s: seq<T>, f: T -> bool): (r: seq<T>)
    ensures |r| <= |s|
    ensures forall x :: x in r ==> x in s && f(x)
  {
    if s == [] then [] else (if f(s[0]) then [s[0]] else []) + Filter(s[1..], f)
  }

  lemma {:induction false} FilterIn<T>(s: seq<T>, f: T -> bool, x: T)
    ensures x in Filter(s, f) <==> x in s && f(x)
  {
    if s != [] {
      FilterIn(s[1..], f, x);
      assert s == [s[0]] + s[1..];
    }
  }

  lemma FilterKept<T>(h: T, t: seq<T>, f: T -> bool)
    requires f(h)
    ensures Filter([h] + t, f) == [h] + Filter(t, f)
  {
    assert ([h] + t)[1..] == t;
  }

  lemma FilterDropped<T>(h: T, t: seq<T>, f: T -> bool)
    requires !f(h)
    ensures Filter([h] + t, f) == Filter(t, f)
  {
    assert ([h] + t)[1..] == t;
  }

  lemma {:induction false} FilterConcat<T>(a: seq<T>, b: seq<T>, f: T -> bool)
    ensures Filter(a + b, f) == Filter(a, f) + Filter(b, f)
  {
    if a == [] {
      assert a + b == b;
    } else {
      assert (a + b)[1..] == a[1..] + b;
      FilterConcat(a[1..], b, f);
    }
  }

  /** Filtering a sequence whose every element passes leaves it unchanged. */
  lemma {:induction false} FilterKeepsAll<T>(s: seq<T>, f: T -> bool)
    requires forall i :: 0 <= i < |s| ==> f(s[i])
    ensures Filter(s, f) == s
  {
    if s != [] {
      FilterKeepsAll(s[1..], f);
    }
  }

  lemma {:induction false} FilterDistinct<T>(s: seq<T>, f: T -> bool)
    requires Distinct(s)
    ensures Distinct(Filter(s, f))
  {
    if s != [] {
      FilterDistinct(s[1..], f);
      if f(s[0]) {
        FilterIn(s[1..], f, s[0]);
      }
    }
  }

  /** Two filters in turn keep what one filter on both conditions keeps, in the same order. */
  lemma {:induction false} FilterFilter<T>(s: seq<T>, f: T -> bool, g: T -> bool, h: T -> bool)
    requires forall x :: h(x) == (f(x) && g(x))
    ensures Filter(Filter(s, f), g) == Filter(s, h)
  {
    if s != [] {
      var x, t := s[0], s[1..];
      assert s == [x] + t;
      FilterFilter(t, f, g, h);
      if !f(x) {
        FilterDropped(x, t, f);
        FilterDropped(x, t, h);
      } else if g(x) {
        FilterKept(x, t, f);
        FilterKept(x, Filter(t, f), g);
        FilterKept(x, t, h);
      } else {
        FilterKept(x, t, f);
        FilterDropped(x, Filter(t, f), g);
        FilterDropped(x, t, h);
      }
    }
  }

  /** Filters whose conditions agree everywhere keep the same elements. */
  lemma {:induction false} FilterSame<T>(s: seq<T>, f: T -> bool, g: T -> bool)
    requires forall x :: f(x) == g(x)
    ensures Filter(s, f) == Filter(s, g)
  {
    if s != [] {
      FilterSame(s[1..], f, g);
    }
  }

  /** Every element is either kept by a filter or kept by its negation. */
  lemma {:induction false} FilterComplement<T>(s: seq<T>, f: T -> bool)
    ensures |Filter(s, f)| + |Filter(s, x => !f(x))| == |s|
  {
    if s != [] {
      FilterComplement(s[1..], f);
    }
  }

  /** `a` is `b` with some elements deleted and the rest in their original order. */
  ghost predicate Subsequence<T>(a: seq<T>, b: seq<T>)
    decreases |b|
  {
    a == [] || (b != [] && ((a[0] == b[0] && Subsequence(a[1..], b[1..])) || Subsequence(a, b[1..])))
  }

  /** A filter keeps the order of what it keeps. */
  lemma {:induction false} FilterSubsequence<T>(s: seq<T>, f: T -> bool)
    ensures Subsequence(Filter(s, f), s)
  {
    if s != [] {
      var rest := Filter(s[1..], f);
      FilterSubsequence(s[1..], f);
      if f(s[0]) {
        var a := [s[0]] + rest;
        assert Filter(s, f) == a;
        assert a[0] == s[0] && a[1..] == rest;
      } else {
        assert Filter(s, f) == rest;
      }
    }
  }

  /** A subsequence of a suffix is a subsequence of the whole. */
  lemma {:induction false} SubsequenceOfSuffix<T>(a: seq<T>, b: seq<T>, n: nat)
    requires n <= |b| && Subsequence(a, b[n..])
    ensures Subsequence(a, b)
  {
    if n > 0 {
      assert b[1..][n - 1..] == b[n..];
      SubsequenceOfSuffix(a, b[1..], n - 1);
    }
  }

  /** No two elements share a key. */
  predicate DistinctBy<T, K(==)>(s: seq<T>, key: T -> K)
  {
    forall i, j :: 0 <= i < j < |s| ==> key(s[i]) != key(s[j])
  }

  /** An element whose key is new can go in front. */
  lemma DistinctByPrepend<T, K>(x: T, s: seq<T>, key: T -> K)
    requires DistinctBy(s, key)
    requires forall i :: 0 <= i < |s| ==> key(x) != key(s[i])
    ensures DistinctBy([x] + s, key)
  {
    var r := [x] + s;
    forall i, j | 0 <= i < j < |r| ensures key(r[i]) != key(r[j]) {
      assert r[j] == s[j - 1];
      if i > 0 {
        assert r[i] == s[i - 1];
      }
    }
  }

  /** Filtering keeps keys distinct. */
  lemma {:induction false} DistinctByFilter<T, K>(s: seq<T>, key: T -> K, f: T -> bool)
    requires DistinctBy(s, key)
    ensures DistinctBy(Filter(s, f), key)
  {
    if s != [] {
      DistinctByFilter(s[1..], key, f);
      var rest := Filter(s[1..], f);
      if f(s[0]) {
        forall i | 0 <= i < |rest| ensures key(s[0]) != key(rest[i]) {
          assert rest[i] in s[1..];
        }
        DistinctByPrepend(s[0], rest, key);
      }
    }
  }

  /** The position of the first occurrence of `x` in `s`. */
  function FirstIndex<T(==)>(s: seq<T>, x: T): (i: nat)
    requires x in s
    ensures i < |s| && s[i] == x && x !in s[..i]
  {
    if s[0] == x then 0 else
      assert x in s[1..];
      1 + FirstIndex(s[1..], x)
  }

  /**
   * `Array.from(new Set(s))`: each distinct element once, in order of first
   * appearance.
   */
  function Dedup<T(==)>(s: seq<T>): (r: seq<T>)
    ensures Distinct(r)
    ensures forall i :: 0 <= i < |r| ==> r[i] in s
    ensures forall i :: 0 <= i < |s| ==> s[i] in r
    decreases |s|
  {
    if s == [] then [] else
      var d := Dedup(s[..|s| - 1]);
      var last := s[|s| - 1];
      assert s == s[..|s| - 1] + [last];
      if last in d then d else d + [last]
  }

  lemma {:induction false} FirstIndexPrefix<T>(s: seq<T>, n: nat, x: T)
    requires n <= |s| && x in s[..n]
    ensures x in s && FirstIndex(s, x) == FirstIndex(s[..n], x)
  {
    if s[0] != x {
      assert s[..n][1..] == s[1..][..n - 1];
      FirstIndexPrefix(s[1..], n - 1, x);
    }
  }

  /** The de-duplicated sequence lists elements in order of first appearance. */
  lemma {:induction false} DedupFirstAppearance<T>(s: seq<T>, i: nat, j: nat)
    requires i < j < |Dedup(s)|
    ensures FirstIndex(s, Dedup(s)[i]) < FirstIndex(s, Dedup(s)[j])
    decreases |s|
  {
    var p := s[..|s| - 1];
    var d := Dedup(p);
    var last := s[|s| - 1];
    assert s == p + [last];
    assert Dedup(s) == if last in d then d else d + [last];
    if j < |d| {
      DedupFirstAppearance(p, i, j);
      FirstIndexPrefix(s, |s| - 1, d[i]);
      FirstIndexPrefix(s, |s| - 1, d[j]);
    } else {
      // Dedup(s)[j] is `last`, which does not occur in p.
      assert last !in p;
      FirstIndexPrefix(s, |s| - 1, d[i]);
      assert FirstIndex(s, last) == |s| - 1;
    }
  }

  /** Descending by `key`. */
  predicate SortedDesc<T>(s: seq<T>, key: T -> real)
  {
    forall i, j :: 0 <= i < j < |s| ==> key(s[i]) >= key(s[j])
  }

  /** A head no smaller than the first element extends a descending sequence. */
  lemma SortedPrepend<T>(h: T, t: seq<T>, key: T -> real)
    requires SortedDesc(t, key)
    requires t != [] ==> key(h) >= key(t[0])
    ensures SortedDesc([h] + t, key)
  {
    var r := [h] + t;
    forall i, j | 0 <= i < j < |r| ensures key(r[i]) >= key(r[j]) {
      assert r[j] == t[j - 1];
      if i == 0 {
        assert key(t[0]) >= key(t[j - 1]) || j - 1 == 0;
      } else {
        assert r[i] == t[i - 1];
      }
    }
  }

  /** Inserts `x` before the first element whose key is not greater than its own. */
  function InsertDesc<T>(x: T, s: seq<T>, key: T -> real): (r: seq<T>)
    requires SortedDesc(s, key)
    ensures |r| == |s| + 1
    ensures r[0] == x || (|s| > 0 && r[0] == s[0])
    ensures SortedDesc(r, key)
    ensures multiset(r) == multiset(s) + multiset{x}
  {
    if s == [] then [x]
    else if key(x) >= key(s[0]) then SortedPrepend(x, s, key); [x] + s
    else
      var rest := InsertDesc(x, s[1..], key);
      var r := [s[0]] + rest;
      assert key(s[0]) >= key(rest[0]) by {
        assert rest[0] == x || rest[0] == s[1];
      }
      SortedPrepend(s[0], rest, key);
      assert s == [s[0]] + s[1..];
      r
  }

  lemma SortedTail<T>(s: seq<T>, key: T -> real)
    requires s != [] && SortedDesc(s, key)
    ensures SortedDesc(s[1..], key)
  {
    forall i, j | 0 <= i < j < |s| - 1 ensures key(s[1..][i]) >= key(s[1..][j]) {
      assert s[1..][i] == s[i + 1] && s[1..][j] == s[j + 1];
    }
  }

  /** Whether an element's key is `k`. */
  function KeyIs<T>(key: T -> real, k: real): T -> bool
  {
    x => key(x) == k
  }

  /** An inserted element goes in front of every element with the same key. */
  lemma {:induction false} InsertDescStable<T>(x: T, s: seq<T>, key: T -> real, k: real)
    requires SortedDesc(s, key)
    ensures key(x) == k ==> Filter(InsertDesc(x, s, key), KeyIs(key, k)) == [x] + Filter(s, KeyIs(key, k))
    ensures key(x) != k ==> Filter(InsertDesc(x, s, key), KeyIs(key, k)) == Filter(s, KeyIs(key, k))
  {
    var f := KeyIs(key, k);
    if s != [] && key(x) < key(s[0]) {
      SortedTail(s, key);
      var ins := InsertDesc(x, s[1..], key);
      InsertDescStable(x, s[1..], key, k);
      assert InsertDesc(x, s, key) == [s[0]] + ins;
      assert s == [s[0]] + s[1..];
      if f(s[0]) {
        FilterKept(s[0], ins, f);
        FilterKept(s[0], s[1..], f);
      } else {
        FilterDropped(s[0], ins, f);
        FilterDropped(s[0], s[1..], f);
      }
    } else {
      assert InsertDesc(x, s, key) == [x] + s;
      if f(x) {
        FilterKept(x, s, f);
      } else {
        FilterDropped(x, s, f);
      }
    }
  }

  /**
   * `Array.prototype.sort((a, b) => key(b) - key(a))`: descending by key and
   * stable, so elements with equal keys keep their relative order
   * (`SortDescStable`).
   */
  function SortDesc<T>(s: seq<T>, key: T -> real): (r: seq<T>)
    ensures SortedDesc(r, key)
    ensures multiset(r) == multiset(s)
  {
    if s == [] then [] else
      assert s == [s[0]] + s[1..];
      InsertDesc(s[0], SortDesc(s[1..], key), key)
  }

  /** Sorting is stable: the elements with any one key come out in their input order. */
  lemma {:induction false} SortDescStable<T>(s: seq<T>, key: T -> real, k: real)
    ensures Filter(SortDesc(s, key), KeyIs(key, k)) == Filter(s, KeyIs(key, k))
  {
    if s != [] {
      var f := KeyIs(key, k);
      SortDescStable(s[1..], key, k);
      InsertDescStable(s[0], SortDesc(s[1..], key), key, k);
      assert SortDesc(s, key) == InsertDesc(s[0], SortDesc(s[1..], key), key);
      if f(s[0]) {
        assert Filter(s, f) == [s[0]] + Filter(s[1..], f);
      } else {
        assert Filter(s, f) == Filter(s[1..], f);
      }
    }
  }
}
