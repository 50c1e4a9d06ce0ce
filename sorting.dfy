/** Sorting of records by a numeric key, as `sorted(xs, key=...)` and
    `DataFrame.sort_values(...)` do it in the modelled code. The sort here is
    an insertion sort; it is proved sorted, a permutation of its input, and
    stable (records with equal keys keep their input order, as Python's
    `sorted` promises). */
module Sorting {

  ghost predicate SortedBy<T>(s: seq<T>, key: T -> real)
  {
    forall i, j :: 0 <= i < j < |s| ==> key(s[i]) <= key(s[j])
  }

  /** The records of `s` whose key is exactly `k`, in order. */
  function WithKey<T>(s: seq<T>, key: T -> real, k: real): (r: seq<T>)
    ensures |r| <= |s|
  {
    if s == [] then []
    else WithKey(s[..|s| - 1], key, k) + (if key(s[|s| - 1]) == k then [s[|s| - 1]] else [])
  }

  /** Inserts `x` after every record whose key is at most `key(x)`. */
  function Insert<T>(x: T, s: seq<T>, key: T -> real): (r: seq<T>)
    ensures |r| == |s| + 1
    ensures multiset(r) == multiset(s) + multiset{x}
  {
    if s == [] || key(s[|s| - 1]) <= key(x) then s + [x]
    else
      var last := s[|s| - 1];
      assert s == s[..|s| - 1] + [last];
      Insert(x, s[..|s| - 1], key) + [last]
  }

  function SortBy<T>(s: seq<T>, key: T -> real): (r: seq<T>)
    ensures |r| == |s|
    ensures multiset(r) == multiset(s)
  {
    if s == [] then []
    else
      assert s == s[..|s| - 1] + [s[|s| - 1]];
      Insert(s[|s| - 1], SortBy(s[..|s| - 1], key), key)
  }

  /** Sorting keeps exactly the elements it is given. */
  lemma SortByHas<T>(s: seq<T>, key: T -> real, x: T)
    ensures x in SortBy(s, key) <==> x in s
  {
    assert x in s <==> x in multiset(s);
    assert x in SortBy(s, key) <==> x in multiset(SortBy(s, key));
  }

  lemma {:induction false} WithKeyAppend<T>(a: seq<T>, b: seq<T>, key: T -> real, k: real)
    ensures WithKey(a + b, key, k) == WithKey(a, key, k) + WithKey(b, key, k)
    decreases |b|
  {
    if b == [] {
      assert a + b == a;
    } else {
      var b' := b[..|b| - 1];
      assert (a + b)[..|a + b| - 1] == a + b';
      WithKeyAppend(a, b', key, k);
    }
  }

  lemma SortedInit<T>(s: seq<T>, key: T -> real)
    requires SortedBy(s, key) && s != []
    ensures SortedBy(s[..|s| - 1], key)
  {
    var init := s[..|s| - 1];
    forall i, j | 0 <= i < j < |init| ensures key(init[i]) <= key(init[j]) {
      assert init[i] == s[i] && init[j] == s[j];
    }
  }

  lemma {:induction false} InsertSorted<T>(x: T, s: seq<T>, key: T -> real)
    requires SortedBy(s, key)
    ensures SortedBy(Insert(x, s, key), key)
    decreases |s|
  {
    if s == [] || key(s[|s| - 1]) <= key(x) {
    } else {
      var init := s[..|s| - 1];
      var last := s[|s| - 1];
      InsertSorted(x, init, key);
      var ins := Insert(x, init, key);
      forall i | 0 <= i < |ins| ensures key(ins[i]) <= key(last) {
        assert ins[i] in multiset(ins);
        assert ins[i] in multiset(init) + multiset{x};
        if ins[i] != x {
          assert ins[i] in multiset(init);
          var j :| 0 <= j < |init| && init[j] == ins[i];
          assert init[j] == s[j];
        }
      }
    }
  }

  /** Inserting `x` places it after every record with key equal to its own. */
  lemma {:induction false} InsertStable<T>(x: T, s: seq<T>, key: T -> real, k: real)
    requires SortedBy(s, key)
    ensures WithKey(Insert(x, s, key), key, k)
         == WithKey(s, key, k) + (if key(x) == k then [x] else [])
    decreases |s|
  {
    if s == [] || key(s[|s| - 1]) <= key(x) {
      assert (s + [x])[..|s + [x]| - 1] == s;
    } else {
      var init, last := s[..|s| - 1], s[|s| - 1];
      var atX := if key(x) == k then [x] else [];
      var atLast := if key(last) == k then [last] else [];
      SortedInit(s, key);
      var ins := Insert(x, init, key);
      assert WithKey(ins, key, k) == WithKey(init, key, k) + atX by {
        InsertStable(x, init, key, k);
      }
      assert Insert(x, s, key) == ins + [last];
      assert (ins + [last])[..|ins + [last]| - 1] == ins;
      assert WithKey(s, key, k) == WithKey(init, key, k) + atLast;
      assert atX == [] || atLast == [];
    }
  }

  lemma {:induction false} SortBySorted<T>(s: seq<T>, key: T -> real)
    ensures SortedBy(SortBy(s, key), key)
  {
    if s != [] {
      SortBySorted(s[..|s| - 1], key);
      InsertSorted(s[|s| - 1], SortBy(s[..|s| - 1], key), key);
    }
  }

  /** `SortBy` is stable: for every key, the records carrying it appear in
      the same order in the result as in the input. */
  lemma {:induction false} SortByStable<T>(s: seq<T>, key: T -> real, k: real)
    ensures WithKey(SortBy(s, key), key, k) == WithKey(s, key, k)
  {
    if s != [] {
      var init := s[..|s| - 1];
      SortByStable(init, key, k);
      SortBySorted(init, key);
      InsertStable(s[|s| - 1], SortBy(init, key), key, k);
    }
  }

  /** No two records of `s` agree on `f`. */
  ghost predicate DistinctBy<T, K>(s: seq<T>, f: T -> K)
  {
    forall i, j :: 0 <= i < j < |s| ==> f(s[i]) != f(s[j])
  }

  lemma {:induction false} InsertDistinct<T, K>(x: T, s: seq<T>, key: T -> real, f: T -> K)
    requires DistinctBy(s, f)
    requires forall i :: 0 <= i < |s| ==> f(s[i]) != f(x)
    ensures DistinctBy(Insert(x, s, key), f)
    decreases |s|
  {
    if s == [] || key(s[|s| - 1]) <= key(x) {
    } else {
      var init := s[..|s| - 1];
      var last := s[|s| - 1];
      InsertDistinct(x, init, key, f);
      var ins := Insert(x, init, key);
      forall i | 0 <= i < |ins| ensures f(ins[i]) != f(last) {
        assert ins[i] in multiset(init) + multiset{x};
        if ins[i] != x {
          assert ins[i] in multiset(init);
          var j :| 0 <= j < |init| && init[j] == ins[i];
          assert init[j] == s[j];
        }
      }
    }
  }

  /** Sorting keeps records that differ on `f` apart: no two records of the
      result agree on `f` when none of the input did. */
  lemma {:induction false} SortByDistinct<T, K>(s: seq<T>, key: T -> real, f: T -> K)
    requires DistinctBy(s, f)
    ensures DistinctBy(SortBy(s, key), f)
  {
    if s != [] {
      var init := s[..|s| - 1];
      assert DistinctBy(init, f);
      SortByDistinct(init, key, f);
      var sorted := SortBy(init, key);
      forall i | 0 <= i < |sorted| ensures f(sorted[i]) != f(s[|s| - 1]) {
        assert sorted[i] in multiset(init);
        var j :| 0 <= j < |init| && init[j] == sorted[i];
        assert init[j] == s[j];
      }
      InsertDistinct(s[|s| - 1], sorted, key, f);
    }
  }
}
