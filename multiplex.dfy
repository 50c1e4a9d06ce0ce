/** The round-robin loop shared by the stream producers: one finite
    generator per column, and repeated passes that pull one record from each
    generator that still has one, in column order, until a pass pulls
    nothing. Generators advance in lockstep, so in pass `p` the generator of
    column `c` yields its `p`-th record if it has one. */
module Multiplex {
  import opened Common

  /** A record and the position of the column it came from. */
  datatype Tagged<T> = Tagged(col: nat, value: T)

  /** Number of columns among the first `n` that still yield in pass `p`. */
  function Live<T>(cols: seq<seq<T>>, p: nat, n: nat): nat
    requires n <= |cols|
  {
    if n == 0 then 0 else Live(cols, p, n - 1) + (if p < |cols[n - 1]| then 1 else 0)
  }

  /** What pass `p` pulls from the first `n` columns, in column order. */
  function PassUpTo<T>(cols: seq<seq<T>>, p: nat, n: nat): (r: seq<Tagged<T>>)
    requires n <= |cols|
    ensures |r| == Live(cols, p, n)
  {
    if n == 0 then []
    else PassUpTo(cols, p, n - 1) + PassCell(cols, p, n - 1)
  }

  /** Pass `p` pulls the `p`-th record of columns among the first `n`. */
  lemma {:induction false} PassTagged<T>(cols: seq<seq<T>>, p: nat, n: nat)
    requires n <= |cols|
    ensures forall i :: 0 <= i < |PassUpTo(cols, p, n)| ==>
      && PassUpTo(cols, p, n)[i].col < n && p < |cols[PassUpTo(cols, p, n)[i].col]|
      && PassUpTo(cols, p, n)[i].value == cols[PassUpTo(cols, p, n)[i].col][p]
  {
    if n > 0 {
      PassTagged(cols, p, n - 1);
      var init := PassUpTo(cols, p, n - 1);
      var tail := PassCell(cols, p, n - 1);
      var r := PassUpTo(cols, p, n);
      assert r == init + tail;
      forall i | 0 <= i < |r| ensures r[i].col < n && p < |cols[r[i].col]| && r[i].value == cols[r[i].col][p] {
        if i < |init| {
          assert r[i] == init[i];
        } else {
          assert tail != [] && r[i] == tail[0];
        }
      }
    }
  }

  function Pass<T>(cols: seq<seq<T>>, p: nat): seq<Tagged<T>>
  {
    PassUpTo(cols, p, |cols|)
  }

  function MaxLen<T>(cols: seq<seq<T>>): (m: nat)
    ensures forall c :: 0 <= c < |cols| ==> |cols[c]| <= m
  {
    if cols == [] then 0
    else
      var rest := MaxLen(cols[..|cols| - 1]);
      assert forall c :: 0 <= c < |cols| - 1 ==> cols[c] == cols[..|cols| - 1][c];
      if |cols[|cols| - 1]| > rest then |cols[|cols| - 1]| else rest
  }

  /** Pass `p` pulls nothing exactly when every generator is exhausted. */
  lemma {:induction false} PassEmpty<T>(cols: seq<seq<T>>, p: nat, n: nat)
    requires n <= |cols|
    ensures PassUpTo(cols, p, n) == [] <==> forall c :: 0 <= c < n ==> |cols[c]| <= p
  {
    if n > 0 {
      PassEmpty(cols, p, n - 1);
    }
  }

  /** The records pulled from pass `p` on: passes repeat until one pulls
      nothing. */
  function PassesFrom<T>(cols: seq<seq<T>>, p: nat): seq<Tagged<T>>
    decreases MaxLen(cols) - p
  {
    var pass := Pass(cols, p);
    if pass == [] then []
    else
      PassEmpty(cols, p, |cols|);
      pass + PassesFrom(cols, p + 1)
  }

  /** The whole emitted sequence: the pass-by-pass transposition. */
  function RoundRobin<T>(cols: seq<seq<T>>): seq<Tagged<T>>
  {
    PassesFrom(cols, 0)
  }

  /** The records of one column, in emitted order. */
  function Column<T>(xs: seq<Tagged<T>>, c: nat): seq<T>
  {
    if xs == [] then []
    else Column(xs[..|xs| - 1], c) + (if xs[|xs| - 1].col == c then [xs[|xs| - 1].value] else [])
  }

  /** Total number of records left from pass `p` on, in the first `n` columns. */
  function Remaining<T>(cols: seq<seq<T>>, p: nat, n: nat): nat
    requires n <= |cols|
  {
    if n == 0 then 0 else Remaining(cols, p, n - 1) + (if p < |cols[n - 1]| then |cols[n - 1]| - p else 0)
  }

  // ---------------------------------------------------------------------

  lemma {:induction false} ColumnAppend<T>(a: seq<Tagged<T>>, b: seq<Tagged<T>>, c: nat)
    ensures Column(a + b, c) == Column(a, c) + Column(b, c)
    decreases |b|
  {
    if b == [] {
      assert a + b == a;
    } else {
      assert (a + b)[..|a + b| - 1] == a + b[..|b| - 1];
      ColumnAppend(a, b[..|b| - 1], c);
    }
  }

  /** A value of column `c` comes from a tagged element of that column. */
  lemma {:induction false} ColumnHas<T>(xs: seq<Tagged<T>>, c: nat, v: T)
    requires v in Column(xs, c)
    ensures exists i :: 0 <= i < |xs| && xs[i].col == c && xs[i].value == v
    decreases |xs|
  {
    var init := xs[..|xs| - 1];
    if v in Column(init, c) {
      ColumnHas(init, c, v);
      var i :| 0 <= i < |init| && init[i].col == c && init[i].value == v;
      assert xs[i] == init[i];
    }
  }

  lemma ColumnSingle<T>(x: Tagged<T>, c: nat)
    ensures Column([x], c) == if x.col == c then [x.value] else []
  {
    assert [x][..0] == [];
  }

  /** What the `n`-th column adds to pass `p`. */
  function PassCell<T>(cols: seq<seq<T>>, p: nat, n: nat): seq<Tagged<T>>
    requires n < |cols|
  {
    if p < |cols[n]| then [Tagged(n, cols[n][p])] else []
  }

  lemma PassUpToStep<T>(cols: seq<seq<T>>, p: nat, n: nat, c: nat)
    requires n < |cols|
    ensures Column(PassUpTo(cols, p, n + 1), c) == Column(PassUpTo(cols, p, n), c) + Column(PassCell(cols, p, n), c)
  {
    assert PassUpTo(cols, p, n + 1) == PassUpTo(cols, p, n) + PassCell(cols, p, n);
    ColumnAppend(PassUpTo(cols, p, n), PassCell(cols, p, n), c);
  }

  lemma ColumnOfCell<T>(cols: seq<seq<T>>, p: nat, n: nat, c: nat)
    requires n < |cols|
    ensures Column(PassCell(cols, p, n), c) == if c == n && p < |cols[n]| then [cols[n][p]] else []
  {
    if p < |cols[n]| {
      ColumnSingle(Tagged(n, cols[n][p]), c);
    } else {
      var none: seq<Tagged<T>> := [];
      assert Column(none, c) == [];
    }
  }

  /** Columns before `c` contribute nothing to column `c`. */
  lemma {:induction false} ColumnOfPassBefore<T>(cols: seq<seq<T>>, p: nat, n: nat, c: nat)
    requires n <= |cols| && n <= c
    ensures Column(PassUpTo(cols, p, n), c) == []
  {
    if n > 0 {
      var m := n - 1;
      ColumnOfPassBefore(cols, p, m, c);
      PassUpToStep(cols, p, m, c);
      ColumnOfOtherCell(cols, p, m, c);
      AppendEmpty(Column(PassUpTo(cols, p, n), c), Column(PassUpTo(cols, p, m), c), Column(PassCell(cols, p, m), c), []);
    }
  }

  /** The `p`-th record of column `c`, if it has one. */
  function ValueCell<T>(cols: seq<seq<T>>, p: nat, c: nat): seq<T>
    requires c < |cols|
  {
    if p < |cols[c]| then [cols[c][p]] else []
  }

  /** Column `c` adds its `p`-th record to the pass, and the columns after
      it add nothing to column `c`. */
  lemma {:induction false} ColumnOfPassAfter<T>(cols: seq<seq<T>>, p: nat, n: nat, c: nat)
    requires c < n <= |cols|
    ensures Column(PassUpTo(cols, p, n), c) == ValueCell(cols, p, c)
  {
    var m := n - 1;
    PassUpToStep(cols, p, m, c);
    if m == c {
      ColumnOfPassBefore(cols, p, m, c);
      ColumnOfOwnCell(cols, p, c);
      EmptyAppend(Column(PassUpTo(cols, p, n), c), Column(PassUpTo(cols, p, m), c), Column(PassCell(cols, p, m), c),
                  ValueCell(cols, p, c));
    } else {
      ColumnOfPassAfter(cols, p, m, c);
      ColumnOfOtherCell(cols, p, m, c);
      AppendEmpty(Column(PassUpTo(cols, p, n), c), Column(PassUpTo(cols, p, m), c), Column(PassCell(cols, p, m), c),
                  ValueCell(cols, p, c));
    }
  }

  lemma ColumnOfOwnCell<T>(cols: seq<seq<T>>, p: nat, c: nat)
    requires c < |cols|
    ensures Column(PassCell(cols, p, c), c) == ValueCell(cols, p, c)
  {
    ColumnOfCell(cols, p, c, c);
  }

  lemma ColumnOfOtherCell<T>(cols: seq<seq<T>>, p: nat, n: nat, c: nat)
    requires n < |cols| && c != n
    ensures Column(PassCell(cols, p, n), c) == []
  {
    ColumnOfCell(cols, p, n, c);
  }

  /** A pass contributes to column `c` exactly its `p`-th record, if any. */
  lemma ColumnOfPass<T>(cols: seq<seq<T>>, p: nat, c: nat)
    requires c < |cols|
    ensures Column(Pass(cols, p), c) == if p < |cols[c]| then [cols[c][p]] else []
  {
    ColumnOfPassAfter(cols, p, |cols|, c);
  }

  /** Glue for the step of a proof about `Column`: a concatenation one of
      whose halves is empty. */
  lemma AppendEmpty<T>(x: seq<T>, a: seq<T>, b: seq<T>, y: seq<T>)
    requires x == a + b && b == [] && a == y
    ensures x == y
  {
  }

  lemma EmptyAppend<T>(x: seq<T>, a: seq<T>, b: seq<T>, y: seq<T>)
    requires x == a + b && a == [] && b == y
    ensures x == y
  {
  }

  lemma AppendAssoc<T>(a: seq<T>, b: seq<T>, c: seq<T>)
    ensures (a + b) + c == a + (b + c)
  {
  }

  lemma {:induction false} ColumnOfPassesFrom<T>(cols: seq<seq<T>>, p: nat, c: nat)
    requires c < |cols|
    ensures Column(PassesFrom(cols, p), c) == if p < |cols[c]| then cols[c][p..] else []
    decreases MaxLen(cols) - p
  {
    PassesFromUnfold(cols, p);
    var pass := Pass(cols, p);
    if pass != [] {
      var rest := PassesFrom(cols, p + 1);
      assert Column(PassesFrom(cols, p), c) == Column(pass, c) + Column(rest, c) by {
        ColumnAppend(pass, rest, c);
      }
      assert Column(pass, c) == if p < |cols[c]| then [cols[c][p]] else [] by {
        ColumnOfPass(cols, p, c);
      }
      assert Column(rest, c) == if p + 1 < |cols[c]| then cols[c][p + 1..] else [] by {
        ColumnOfPassesFrom(cols, p + 1, c);
      }
      SuffixGlue(cols[c], p, Column(PassesFrom(cols, p), c), Column(pass, c), Column(rest, c));
    } else {
      var none: seq<Tagged<T>> := [];
      assert Column(none, c) == [];
    }
  }

  /** The suffix of `s` from `p` is its `p`-th element, if any, followed by
      the suffix from `p + 1`. */
  lemma SuffixGlue<T>(s: seq<T>, p: nat, x: seq<T>, a: seq<T>, b: seq<T>)
    requires x == a + b
    requires a == if p < |s| then [s[p]] else []
    requires b == if p + 1 < |s| then s[p + 1..] else []
    ensures x == if p < |s| then s[p..] else []
  {
    if p < |s| {
      assert s[p..] == [s[p]] + s[p + 1..];
    }
  }

  /** Every record of every column is emitted, once, in its column's order. */
  lemma RoundRobinColumn<T>(cols: seq<seq<T>>, c: nat)
    requires c < |cols|
    ensures Column(RoundRobin(cols), c) == cols[c]
  {
    ColumnOfPassesFrom(cols, 0, c);
    assert cols[c][0..] == cols[c];
  }

  /** Records come only from the given columns, at the position they hold
      there. */
  lemma {:induction false} PassesFromTagged<T>(cols: seq<seq<T>>, p: nat)
    ensures forall i :: 0 <= i < |PassesFrom(cols, p)| ==>
      var x := PassesFrom(cols, p)[i]; x.col < |cols| && x.value in cols[x.col]
    decreases MaxLen(cols) - p
  {
    var pass := Pass(cols, p);
    PassEmpty(cols, p, |cols|);
    if pass != [] {
      PassTagged(cols, p, |cols|);
      PassesFromTagged(cols, p + 1);
      var xs := PassesFrom(cols, p);
      forall i | 0 <= i < |xs| ensures xs[i].col < |cols| && xs[i].value in cols[xs[i].col] {
        if i >= |pass| {
          assert xs[i] == PassesFrom(cols, p + 1)[i - |pass|];
        } else {
          assert xs[i] == pass[i];
        }
      }
    }
  }

  lemma {:induction false} RemainingStep<T>(cols: seq<seq<T>>, p: nat, n: nat)
    requires n <= |cols|
    ensures Remaining(cols, p, n) == Live(cols, p, n) + Remaining(cols, p + 1, n)
  {
    if n > 0 {
      RemainingStep(cols, p, n - 1);
    }
  }

  lemma {:induction false} LengthOfPassesFrom<T>(cols: seq<seq<T>>, p: nat)
    ensures |PassesFrom(cols, p)| == Remaining(cols, p, |cols|)
    decreases MaxLen(cols) - p
  {
    var pass := Pass(cols, p);
    PassEmpty(cols, p, |cols|);
    RemainingStep(cols, p, |cols|);
    if pass != [] {
      LengthOfPassesFrom(cols, p + 1);
    } else {
      RemainingZero(cols, p, |cols|);
    }
  }

  lemma {:induction false} RemainingZero<T>(cols: seq<seq<T>>, p: nat, n: nat)
    requires n <= |cols|
    requires forall c :: 0 <= c < n ==> |cols[c]| <= p
    ensures Remaining(cols, p, n) == 0
  {
    if n > 0 {
      RemainingZero(cols, p, n - 1);
    }
  }

  /** The sum of the column lengths. */
  function TotalLength<T>(cols: seq<seq<T>>): nat
  {
    if cols == [] then 0 else TotalLength(cols[..|cols| - 1]) + |cols[|cols| - 1]|
  }

  lemma {:induction false} RemainingFromStart<T>(cols: seq<seq<T>>, n: nat)
    requires n <= |cols|
    ensures Remaining(cols, 0, n) == TotalLength(cols[..n])
  {
    if n > 0 {
      RemainingFromStart(cols, n - 1);
      assert cols[..n][..n - 1] == cols[..n - 1];
    }
  }

  /** As many records are emitted as the columns hold together. */
  lemma RoundRobinLength<T>(cols: seq<seq<T>>)
    ensures |RoundRobin(cols)| == TotalLength(cols)
  {
    LengthOfPassesFrom(cols, 0);
    RemainingFromStart(cols, |cols|);
    assert cols[..|cols|] == cols;
  }

  // ---------------------------------------------------------------------
  // The `while streaming` loop itself

  /** The record sequences of keyed generators. */
  function Sequences<K, T>(gens: seq<(K, seq<T>)>): (cols: seq<seq<T>>)
    ensures |cols| == |gens|
    ensures forall c :: 0 <= c < |gens| ==> cols[c] == gens[c].1
  {
    seq(|gens|, c requires 0 <= c < |gens| => gens[c].1)
  }

  /** Each tagged record, stamped with the key of the generator it came from. */
  function Emit<K, T, U>(gens: seq<(K, seq<T>)>, stamp: (K, T) -> U, xs: seq<Tagged<T>>): (r: seq<U>)
    requires forall i :: 0 <= i < |xs| ==> xs[i].col < |gens|
    ensures |r| == |xs|
    ensures forall i :: 0 <= i < |xs| ==> r[i] == stamp(gens[xs[i].col].0, xs[i].value)
  {
    seq(|xs|, i requires 0 <= i < |xs| => stamp(gens[xs[i].col].0, xs[i].value))
  }

  /** What the loop emits: the round robin over the generators, stamped. */
  function Emitted<K, T, U>(gens: seq<(K, seq<T>)>, stamp: (K, T) -> U): seq<U>
  {
    PassesFromTagged(Sequences(gens), 0);
    Emit(gens, stamp, RoundRobin(Sequences(gens)))
  }

  lemma EmitAppend<K, T, U>(gens: seq<(K, seq<T>)>, stamp: (K, T) -> U, a: seq<Tagged<T>>, b: seq<Tagged<T>>)
    requires forall i :: 0 <= i < |a| ==> a[i].col < |gens|
    requires forall i :: 0 <= i < |b| ==> b[i].col < |gens|
    ensures Emit(gens, stamp, a + b) == Emit(gens, stamp, a) + Emit(gens, stamp, b)
  {
    var ab := a + b;
    assert forall i :: 0 <= i < |ab| ==> ab[i].col < |gens|;
    assert forall i :: 0 <= i < |ab| ==> Emit(gens, stamp, ab)[i] == (Emit(gens, stamp, a) + Emit(gens, stamp, b))[i];
  }

  /** The elements of `us` whose key is `k`, in order. */
  function OfKey<K(==), U>(us: seq<U>, keyOf: U -> K, k: K): seq<U>
  {
    if us == [] then []
    else OfKey(us[..|us| - 1], keyOf, k) + (if keyOf(us[|us| - 1]) == k then [us[|us| - 1]] else [])
  }

  /** The records of one generator, each stamped with its key. */
  function StampSeq<K, T, U>(xs: seq<T>, k: K, stamp: (K, T) -> U): (r: seq<U>)
    ensures |r| == |xs|
    ensures forall i :: 0 <= i < |xs| ==> r[i] == stamp(k, xs[i])
  {
    seq(|xs|, i requires 0 <= i < |xs| => stamp(k, xs[i]))
  }

  /** A stamp that records its key. */
  ghost predicate KeepsKey<K(!new), T(!new), U>(stamp: (K, T) -> U, keyOf: U -> K)
  {
    forall k, x :: keyOf(stamp(k, x)) == k
  }

  ghost predicate DistinctKeys<K, T>(gens: seq<(K, seq<T>)>)
  {
    forall c, d :: 0 <= c < d < |gens| ==> gens[c].0 != gens[d].0
  }

  lemma {:induction false} OfKeyOfEmit<K(!new), T(!new), U>(gens: seq<(K, seq<T>)>, stamp: (K, T) -> U, keyOf: U -> K,
                                                    xs: seq<Tagged<T>>, c: nat)
    requires c < |gens| && Within(xs, |gens|) && DistinctKeys(gens) && KeepsKey(stamp, keyOf)
    ensures OfKey(Emit(gens, stamp, xs), keyOf, gens[c].0) == StampSeq(Column(xs, c), gens[c].0, stamp)
  {
    if xs != [] {
      var init := xs[..|xs| - 1];
      var x := xs[|xs| - 1];
      assert Within(init, |gens|);
      OfKeyOfEmit(gens, stamp, keyOf, init, c);
      var es := Emit(gens, stamp, xs);
      assert es[..|es| - 1] == Emit(gens, stamp, init);
      assert keyOf(es[|es| - 1]) == gens[x.col].0;
      assert keyOf(es[|es| - 1]) == gens[c].0 <==> x.col == c;
      var initCol := Column(init, c);
      if x.col == c {
        assert Column(xs, c) == initCol + [x.value];
        assert StampSeq(initCol + [x.value], gens[c].0, stamp) == StampSeq(initCol, gens[c].0, stamp) + [stamp(gens[c].0, x.value)];
      } else {
        assert Column(xs, c) == initCol;
      }
    }
  }

  /** With distinct keys and a stamp that records its key, the emitted
      elements of one key are its generator's records, each exactly once, in
      the generator's order. */
  lemma EmittedOfKey<K(!new), T(!new), U>(gens: seq<(K, seq<T>)>, stamp: (K, T) -> U, keyOf: U -> K, c: nat)
    requires c < |gens| && DistinctKeys(gens) && KeepsKey(stamp, keyOf)
    ensures OfKey(Emitted(gens, stamp), keyOf, gens[c].0) == StampSeq(gens[c].1, gens[c].0, stamp)
  {
    var cols := Sequences(gens);
    PassesFromTagged(cols, 0);
    OfKeyOfEmit(gens, stamp, keyOf, RoundRobin(cols), c);
    RoundRobinColumn(cols, c);
  }

  /** Every emitted element is a record of some generator, stamped with that
      generator's key. */
  lemma EmittedFrom<K, T, U>(gens: seq<(K, seq<T>)>, stamp: (K, T) -> U, i: nat)
    requires i < |Emitted(gens, stamp)|
    ensures exists c, x :: 0 <= c < |gens| && x in gens[c].1 && Emitted(gens, stamp)[i] == stamp(gens[c].0, x)
  {
    var cols := Sequences(gens);
    PassesFromTagged(cols, 0);
    var x := RoundRobin(cols)[i];
    assert x.value in gens[x.col].1;
  }

  /** As many elements are emitted as the generators hold together. */
  lemma EmittedLength<K, T, U>(gens: seq<(K, seq<T>)>, stamp: (K, T) -> U)
    ensures |Emitted(gens, stamp)| == TotalLength(Sequences(gens))
  {
    RoundRobinLength(Sequences(gens));
  }

  /** Pass `p` followed by the passes after it, or nothing once a pass is
      empty, which is when every column is exhausted. */
  lemma PassesFromUnfold<T>(cols: seq<seq<T>>, p: nat)
    ensures Pass(cols, p) == [] ==> PassesFrom(cols, p) == [] && forall c :: 0 <= c < |cols| ==> |cols[c]| <= p
    ensures Pass(cols, p) != [] ==> PassesFrom(cols, p) == Pass(cols, p) + PassesFrom(cols, p + 1) && p < MaxLen(cols)
  {
    PassEmpty(cols, p, |cols|);
  }

  /** `while streaming`: every pass calls `next` on each generator in order
      and emits what it yields, then sleeps; the loop stops after a pass in
      which no generator yielded. A generator's state is how many records it
      has yielded. The sleep is the same after every pass: `pause` is the
      exception it raises, if any, which then ends the loop after the first
      pass. */
  method StreamPasses<K, T, U>(gens: seq<(K, seq<T>)>, stamp: (K, T) -> U, pause: Option<Error>, out0: seq<U>)
    returns (out: seq<U>, raised: Option<Error>)
    ensures raised == pause
    ensures pause.None? ==> out == out0 + Emitted(gens, stamp)
    ensures pause.Some? ==> out == out0 + FirstPass(gens, stamp)
  {
    ghost var cols := Sequences(gens);
    PassesFromTagged(cols, 0);
    var pos: seq<nat> := seq(|gens|, c => 0);
    ghost var p: nat := 0;
    ghost var done: seq<Tagged<T>> := [];
    out := out0;
    var streaming := true;
    while streaming
      invariant |pos| == |gens|
      invariant AtPass(gens, pos, p)
      invariant Within(done, |gens|)
      invariant out == out0 + Emit(gens, stamp, done)
      invariant pause.Some? ==> p == 0 && streaming && out == out0
      invariant streaming ==> done + PassesFrom(cols, p) == RoundRobin(cols) && p <= MaxLen(cols)
      invariant !streaming ==> done == RoundRobin(cols)
      decreases if streaming then 1 else 0, MaxLen(cols) - p
    {
      ghost var outBefore := out;
      pos, out, streaming := OnePass(gens, stamp, pos, p, out);
      if pause.Some? {
        assert out == out0 + FirstPass(gens, stamp);
        return out, pause;
      }
      StreamStep(gens, stamp, done, p, out0, outBefore, out, streaming);
      done := done + Pass(cols, p);
      p := p + 1;
    }
    raised := None;
  }

  /** What the first pass emits: the first record of every generator that
      has one, in generator order. */
  function FirstPass<K, T, U>(gens: seq<(K, seq<T>)>, stamp: (K, T) -> U): seq<U>
  {
    PassOutput(gens, stamp, 0, |gens|)
  }

  /** The first pass emits at most one record per generator, and it is how
      the whole round robin begins. */
  lemma FirstPassPrefix<K, T, U>(gens: seq<(K, seq<T>)>, stamp: (K, T) -> U)
    ensures |FirstPass(gens, stamp)| <= |gens|
    ensures |FirstPass(gens, stamp)| <= |Emitted(gens, stamp)|
    ensures Emitted(gens, stamp)[..|FirstPass(gens, stamp)|] == FirstPass(gens, stamp)
  {
    var cols := Sequences(gens);
    PassOutputLength(gens, stamp, 0, |gens|);
    PassOutputEmit(gens, stamp, 0, |gens|);
    PassesFromTagged(cols, 0);
    PassesFromUnfold(cols, 0);
    var first := Pass(cols, 0);
    if first != [] {
      PassesFromTagged(cols, 1);
      EmitAppend(gens, stamp, first, PassesFrom(cols, 1));
    }
  }

  lemma {:induction false} PassOutputLength<K, T, U>(gens: seq<(K, seq<T>)>, stamp: (K, T) -> U, p: nat, c: nat)
    requires c <= |gens|
    ensures |PassOutput(gens, stamp, p, c)| <= c
  {
    if c > 0 {
      PassOutputLength(gens, stamp, p, c - 1);
    }
  }

  /** The bookkeeping of one iteration of the `while streaming` loop. */
  lemma StreamStep<K, T, U>(gens: seq<(K, seq<T>)>, stamp: (K, T) -> U, done: seq<Tagged<T>>, p: nat,
                            out0: seq<U>, outBefore: seq<U>, out: seq<U>, yielded: bool)
    requires Within(done, |gens|) && outBefore == out0 + Emit(gens, stamp, done)
    requires done + PassesFrom(Sequences(gens), p) == RoundRobin(Sequences(gens))
    requires out == outBefore + PassOutput(gens, stamp, p, |gens|)
    requires yielded <==> PassOutput(gens, stamp, p, |gens|) != []
    ensures Within(done + Pass(Sequences(gens), p), |gens|)
    ensures out == out0 + Emit(gens, stamp, done + Pass(Sequences(gens), p))
    ensures yielded ==>
      done + Pass(Sequences(gens), p) + PassesFrom(Sequences(gens), p + 1) == RoundRobin(Sequences(gens))
      && p + 1 <= MaxLen(Sequences(gens))
    ensures !yielded ==> done + Pass(Sequences(gens), p) == RoundRobin(Sequences(gens))
  {
    var cols := Sequences(gens);
    var pass := Pass(cols, p);
    PassTagged(cols, p, |cols|);
    PassOutputEmit(gens, stamp, p, |gens|);
    assert Within(pass, |gens|);
    assert Within(done + pass, |gens|);
    assert Emit(gens, stamp, done + pass) == Emit(gens, stamp, done) + Emit(gens, stamp, pass) by {
      EmitAppend(gens, stamp, done, pass);
    }
    AppendAssoc(out0, Emit(gens, stamp, done), Emit(gens, stamp, pass));
    PassesFromUnfold(cols, p);
    if pass != [] {
      AppendAssoc(done, pass, PassesFrom(cols, p + 1));
    } else {
      assert done + pass == done;
    }
  }

  /** Every generator has yielded its first `p` records, or all of them. */
  ghost predicate AtPass<K, T>(gens: seq<(K, seq<T>)>, pos: seq<nat>, p: nat)
  {
    |pos| == |gens| && forall c :: 0 <= c < |gens| ==> pos[c] == if p < |gens[c].1| then p else |gens[c].1|
  }

  ghost predicate Within<T>(xs: seq<Tagged<T>>, n: nat)
  {
    forall i :: 0 <= i < |xs| ==> xs[i].col < n
  }

  /** Where the generators stand part-way through pass `p`: the first `c`
      have yielded their `p`-th record, if they had one. */
  ghost function PosAfter<K, T>(gens: seq<(K, seq<T>)>, p: nat, c: nat): (pos: seq<nat>)
    ensures |pos| == |gens|
  {
    seq(|gens|, d requires 0 <= d < |gens| =>
      if d < c then (if p + 1 < |gens[d].1| then p + 1 else |gens[d].1|)
      else (if p < |gens[d].1| then p else |gens[d].1|))
  }

  lemma PosAfterEnds<K, T>(gens: seq<(K, seq<T>)>, pos: seq<nat>, p: nat)
    ensures AtPass(gens, pos, p) ==> pos == PosAfter(gens, p, 0)
    ensures pos == PosAfter(gens, p, |gens|) ==> AtPass(gens, pos, p + 1)
  {
  }

  /** Calling `next` on generator `c` moves it on by one if it still holds a
      record. */
  lemma PosAfterStep<K, T>(gens: seq<(K, seq<T>)>, p: nat, c: nat)
    requires c < |gens|
    ensures PosAfter(gens, p, c)[c] < |gens[c].1| <==> p < |gens[c].1|
    ensures PosAfter(gens, p, c)[c] < |gens[c].1| ==> PosAfter(gens, p, c)[c] == p
    ensures PosAfter(gens, p, c + 1)
              == if p < |gens[c].1| then PosAfter(gens, p, c)[c := p + 1] else PosAfter(gens, p, c)
  {
  }

  /** One pass of the loop over all generators: each still holding a record
      yields it; `yielded` says whether any did. */
  method OnePass<K, T, U>(gens: seq<(K, seq<T>)>, stamp: (K, T) -> U, pos0: seq<nat>, ghost p: nat, out0: seq<U>)
    returns (pos: seq<nat>, out: seq<U>, yielded: bool)
    requires AtPass(gens, pos0, p)
    ensures AtPass(gens, pos, p + 1)
    ensures out == out0 + PassOutput(gens, stamp, p, |gens|)
    ensures yielded <==> PassOutput(gens, stamp, p, |gens|) != []
  {
    PosAfterEnds(gens, pos0, p);
    pos, out, yielded := pos0, out0, false;
    var c := 0;
    while c < |gens|
      invariant 0 <= c <= |gens| && pos == PosAfter(gens, p, c)
      invariant out == out0 + PassOutput(gens, stamp, p, c)
      invariant yielded <==> PassOutput(gens, stamp, p, c) != []
    {
      PosAfterStep(gens, p, c);
      if pos[c] < |gens[c].1| {
        var x := gens[c].1[pos[c]];
        pos := pos[c := pos[c] + 1];
        out := out + [stamp(gens[c].0, x)];
        yielded := true;
      }
      c := c + 1;
    }
    PosAfterEnds(gens, pos, p);
  }

  /** What pass `p` emits from the first `c` generators, generator by
      generator. */
  function PassOutput<K, T, U>(gens: seq<(K, seq<T>)>, stamp: (K, T) -> U, p: nat, c: nat): seq<U>
    requires c <= |gens|
  {
    if c == 0 then []
    else PassOutput(gens, stamp, p, c - 1)
         + (if p < |gens[c - 1].1| then [stamp(gens[c - 1].0, gens[c - 1].1[p])] else [])
  }

  lemma {:induction false} PassOutputEmit<K, T, U>(gens: seq<(K, seq<T>)>, stamp: (K, T) -> U, p: nat, c: nat)
    requires c <= |gens|
    ensures Within(PassUpTo(Sequences(gens), p, c), |gens|)
    ensures PassOutput(gens, stamp, p, c) == Emit(gens, stamp, PassUpTo(Sequences(gens), p, c))
  {
    var cols := Sequences(gens);
    PassTagged(cols, p, c);
    if c > 0 {
      PassOutputEmit(gens, stamp, p, c - 1);
      var init := PassUpTo(cols, p, c - 1);
      var cell := PassCell(cols, p, c - 1);
      assert PassUpTo(cols, p, c) == init + cell;
      assert Within(cell, |gens|);
      EmitAppend(gens, stamp, init, cell);
      assert Emit(gens, stamp, cell) == if p < |gens[c - 1].1| then [stamp(gens[c - 1].0, gens[c - 1].1[p])] else [];
    }
  }
}
