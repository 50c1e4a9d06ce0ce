/** `build_batch_context` (python_data_generation/src/batch_context/main.py):
    for every run and, within it, every column id, one batch-context
    generator with the next batch id, and its phase-event generator. Run 0
    starts at the execution time; a later run of a column starts the batch
    delay after the `batch_end` event of that column's previous run. Both
    dictionaries keep their keys in first-assignment order. */
module BatchContext {
  import opened Common
  import opened Template
  import opened BatchContextGenerator

  /** The recipe name every batch carries. */
  const Recipe := "affinity_chrom_v1"

  /** The generator constructor the loops call, given a batch id, a column
      and a start time. */
  type Maker = (nat, string, real) -> Result<Context>

  /** The constructor with the template, `holds` and the recipe fixed. */
  function MakerOf(template: Table, holds: bool): Maker
  {
    (batchId: nat, col: string, start: real) => NewContext(template, holds, Recipe, batchId, col, start)
  }

  /** What the loops are given: the constructor, the execution time and the
      batch delay. */
  datatype Env = Env(make: Maker, executionTime: real, batchDelaySec: real)

  /** One call of the constructor. */
  function Made(env: Env, batchId: nat, col: string, start: real): Result<Context>
  {
    env.make(batchId, col, start)
  }

  /** The two dictionaries `batch_context` and `phase_generators`, and their
      keys in insertion order. */
  datatype BatchSetup = BatchSetup(keys: seq<string>, contexts: map<string, seq<Context>>,
                                   generators: map<string, seq<seq<PhaseRecord>>>)

  /** The start time of run `run` of column `col`: the execution time for
      run 0, else the delay after the last batch event of the previous run;
      the lookups raise as Python's would. */
  function RunStart(env: Env, s: BatchSetup, run: nat, col: string): Result<real>
  {
    if run == 0 then Ok(env.executionTime)
    else if col !in s.contexts then Err(KeyError(col))
    else if |s.contexts[col]| <= run - 1 then Err(IndexError)
    else
      var prev := s.contexts[col][run - 1].batchData;
      if prev == [] then Err(IndexError) else Ok(prev[|prev| - 1].eventTs + env.batchDelaySec)
  }

  /** One iteration of the inner loop. On run 0 both lists of the column
      are (re)set to empty before the new generator is appended; on a later
      run both are looked up by key. */
  function Step(env: Env, s: BatchSetup, run: nat, col: string, batchId: nat): Result<BatchSetup>
  {
    match RunStart(env, s, run, col)
    case Err(e) => Err(e)
    case Ok(start) =>
      match Made(env, batchId, col, start)
      case Err(e) => Err(e)
      case Ok(ctx) =>
        if run != 0 && col !in s.generators then Err(KeyError(col))
        else
          var gen := StreamRows(ctx.phaseData, false);
          Ok(BatchSetup(if col in s.contexts then s.keys else s.keys + [col],
                        s.contexts[col := if run == 0 then [ctx] else s.contexts[col] + [ctx]],
                        s.generators[col := if run == 0 then [gen] else s.generators[col] + [gen]]))
  }

  const Empty := BatchSetup([], map[], map[])

  /** The batch id of the `c`-th column (from 0) in run `run`: the ids
      count up from 1, run by run, column by column. */
  function BatchId(n: nat, run: nat, c: nat): nat
  {
    run * n + c + 1
  }

  /** The dictionaries after all runs before `run` and the first `c`
      columns of run `run`. */
  function ColumnsUpTo(env: Env, ids: seq<string>, run: nat, c: nat): Result<BatchSetup>
    requires c <= |ids|
    decreases run, c
  {
    if c == 0 then
      if run == 0 then Ok(Empty) else ColumnsUpTo(env, ids, run - 1, |ids|)
    else
      match ColumnsUpTo(env, ids, run, c - 1)
      case Err(e) => Err(e)
      case Ok(s) => Step(env, s, run, ids[c - 1], BatchId(|ids|, run, c - 1))
  }

  /** `build_batch_context` */
  function Build(env: Env, ids: seq<string>, runs: nat): Result<BatchSetup>
  {
    ColumnsUpTo(env, ids, runs, 0)
  }

  // ---------------------------------------------------------------------

  /** Every call of the constructor succeeds with two batch events. */
  ghost predicate Builds(make: Maker)
  {
    forall id, col, start :: make(id, col, start).Ok? && |make(id, col, start).value.batchData| == 2
  }

  /** ... and the last batch event comes `m` seconds after the start. */
  ghost predicate Lasts(make: Maker, m: real)
  {
    Builds(make) && forall id, col, start :: make(id, col, start).value.batchData[1].eventTs == start + m
  }

  /** With a template that keeps a row, the constructor always succeeds
      with the (filtered) template, the two batch events and the phase
      events, and a batch lasts until the template's last minute; with none,
      it always raises. */
  lemma MakerFacts(template: Table, holds: bool)
    ensures var rows := ApplyHolds(template, holds).rows;
      && (rows != [] ==> Lasts(MakerOf(template, holds), MaxOf(TimeMins(rows)) * 60.0))
      && (rows != [] ==> forall id, col, start :: MakerOf(template, holds)(id, col, start)
                           == Ok(Context(ApplyHolds(template, holds), BatchRows(rows, Recipe, id, col, start), PhaseData(rows, start))))
      && (rows == [] ==> forall id, col, start :: MakerOf(template, holds)(id, col, start) == Err(EmptyMin))
  {
    var rows := ApplyHolds(template, holds).rows;
    forall id, col, start ensures
      && (rows != [] ==> MakerOf(template, holds)(id, col, start)
                           == Ok(Context(ApplyHolds(template, holds), BatchRows(rows, Recipe, id, col, start), PhaseData(rows, start))))
      && (rows == [] ==> MakerOf(template, holds)(id, col, start) == Err(EmptyMin))
    {
      NewContextErrors(template, holds, Recipe, id, col, start);
    }
  }

  /** Once a step raises, the loops stop with its exception. */
  lemma {:induction false} ErrorPersists(env: Env, ids: seq<string>, r0: nat, c0: nat, run: nat, c: nat)
    requires c0 <= |ids| && c <= |ids|
    requires r0 < run || (r0 == run && c0 <= c)
    requires ColumnsUpTo(env, ids, r0, c0).Err?
    ensures ColumnsUpTo(env, ids, run, c) == ColumnsUpTo(env, ids, r0, c0)
    decreases run, c
  {
    if r0 == run && c0 == c {
    } else if c > 0 {
      ErrorPersists(env, ids, r0, c0, run, c - 1);
    } else {
      ErrorPersists(env, ids, r0, c0, run - 1, |ids|);
    }
  }

  /** `keys` lists the keys of the dictionaries in insertion order, each
      once. */
  ghost predicate KeysListed(s: BatchSetup)
  {
    NoDuplicates(s.keys) && forall c :: c in s.keys <==> c in s.contexts
  }

  /** Each column has one phase-event generator per generator, and it
      yields that generator's phase events. */
  ghost predicate Paired(s: BatchSetup)
  {
    forall c :: c in s.contexts ==>
      && c in s.generators && |s.generators[c]| == |s.contexts[c]|
      && forall i :: 0 <= i < |s.contexts[c]| ==> s.generators[c][i] == StreamRows(s.contexts[c][i].phaseData, false)
  }

  lemma StepKeeps(env: Env, s: BatchSetup, run: nat, col: string, batchId: nat)
    requires KeysListed(s) && Paired(s) && Step(env, s, run, col, batchId).Ok?
    ensures KeysListed(Step(env, s, run, col, batchId).value) && Paired(Step(env, s, run, col, batchId).value)
  {
    var r := Step(env, s, run, col, batchId).value;
    assert forall c :: c in r.keys <==> c in r.contexts;
    forall c | c in r.contexts && c != col
      ensures r.contexts[c] == s.contexts[c] && r.generators[c] == s.generators[c]
    {
    }
  }

  /** Whatever the column ids, the keys are listed once each in insertion
      order, and the two dictionaries stay in step. */
  lemma {:induction false} SetupInvariants(env: Env, ids: seq<string>, run: nat, c: nat)
    requires c <= |ids| && ColumnsUpTo(env, ids, run, c).Ok?
    ensures KeysListed(ColumnsUpTo(env, ids, run, c).value) && Paired(ColumnsUpTo(env, ids, run, c).value)
    decreases run, c
  {
    if c == 0 {
      if run > 0 {
        SetupInvariants(env, ids, run - 1, |ids|);
      }
    } else {
      SetupInvariants(env, ids, run, c - 1);
      StepKeeps(env, ColumnsUpTo(env, ids, run, c - 1).value, run, ids[c - 1], BatchId(|ids|, run, c - 1));
    }
  }

  /** Every context in the dictionaries has its two batch events, and every
      column seen so far has at least one context per finished run, plus
      one if it already came up in the current run. */
  ghost predicate Filled(s: BatchSetup, ids: seq<string>, run: nat, c: nat)
    requires c <= |ids|
  {
    && (forall col :: col in s.contexts ==> forall i :: 0 <= i < |s.contexts[col]| ==> |s.contexts[col][i].batchData| == 2)
    && forall d :: 0 <= d < |ids| && (run > 0 || d < c) ==>
         ids[d] in s.contexts && |s.contexts[ids[d]]| >= run + (if ids[d] in ids[..c] then 1 else 0)
  }

  lemma StepFilled(env: Env, s: BatchSetup, ids: seq<string>, run: nat, c: nat)
    requires c < |ids| && Builds(env.make) && Paired(s) && Filled(s, ids, run, c)
    ensures Step(env, s, run, ids[c], BatchId(|ids|, run, c)).Ok?
    ensures Filled(Step(env, s, run, ids[c], BatchId(|ids|, run, c)).value, ids, run, c + 1)
  {
    var col := ids[c];
    if run > 0 {
      assert ids[c] in s.contexts;
    }
    assert RunStart(env, s, run, col).Ok?;
    var r := Step(env, s, run, col, BatchId(|ids|, run, c)).value;
    assert ids[..c + 1] == ids[..c] + [col];
    forall d | 0 <= d < |ids| && (run > 0 || d < c + 1)
      ensures ids[d] in r.contexts && |r.contexts[ids[d]]| >= run + (if ids[d] in ids[..c + 1] then 1 else 0)
    {
      if ids[d] != col {
        assert r.contexts[ids[d]] == s.contexts[ids[d]];
      }
    }
  }

  lemma FilledNext(env: Env, ids: seq<string>, run: nat, c: nat)
    requires c < |ids| && Builds(env.make)
    requires ColumnsUpTo(env, ids, run, c).Ok? && Filled(ColumnsUpTo(env, ids, run, c).value, ids, run, c)
    ensures ColumnsUpTo(env, ids, run, c + 1).Ok? && Filled(ColumnsUpTo(env, ids, run, c + 1).value, ids, run, c + 1)
  {
    SetupInvariants(env, ids, run, c);
    StepFilled(env, ColumnsUpTo(env, ids, run, c).value, ids, run, c);
  }

  lemma {:induction false} FilledUpTo(env: Env, ids: seq<string>, run: nat, c: nat)
    requires c <= |ids| && Builds(env.make)
    ensures ColumnsUpTo(env, ids, run, c).Ok?
    ensures Filled(ColumnsUpTo(env, ids, run, c).value, ids, run, c)
    decreases run, c
  {
    if c == 0 {
      if run > 0 {
        FilledUpTo(env, ids, run - 1, |ids|);
        var s := ColumnsUpTo(env, ids, run - 1, |ids|).value;
        forall d | 0 <= d < |ids|
          ensures ids[d] in s.contexts && |s.contexts[ids[d]]| >= run
        {
          assert ids[d] in ids[..|ids|];
        }
      }
    } else {
      FilledUpTo(env, ids, run, c - 1);
      FilledNext(env, ids, run, c - 1);
    }
  }

  lemma {:induction false} EmptyIdsBuild(env: Env, runs: nat)
    ensures ColumnsUpTo(env, [], runs, 0) == Ok(Empty)
  {
    if runs > 0 {
      EmptyIdsBuild(env, runs - 1);
    }
  }

  /** The dictionaries are built exactly when the template keeps a row or
      there is nothing to build, whatever the column ids (repeats
      included); otherwise the first generator's `min` raises. */
  lemma BuildErrors(template: Table, holds: bool, exec: real, delay: real, ids: seq<string>, runs: nat)
    ensures var r := Build(Env(MakerOf(template, holds), exec, delay), ids, runs);
      && (r.Err? <==> runs > 0 && ids != [] && ApplyHolds(template, holds).rows == [])
      && (r.Err? ==> r.error == EmptyMin)
  {
    var env := Env(MakerOf(template, holds), exec, delay);
    MakerFacts(template, holds);
    if ApplyHolds(template, holds).rows != [] {
      FilledUpTo(env, ids, runs, 0);
    } else if runs > 0 && ids != [] {
      assert ColumnsUpTo(env, ids, 0, 1) == Err(EmptyMin);
      ErrorPersists(env, ids, 0, 1, runs, 0);
    } else if runs > 0 {
      EmptyIdsBuild(env, runs);
    }
  }

  // ---------------------------------------------------------------------
  // The closed form for distinct column ids

  /** When every batch lasts `m` seconds, run `r` starts `r` times the
      batch length plus the delay after the execution time. */
  function StartOf(env: Env, m: real, r: nat): real
  {
    env.executionTime + r as real * (m + env.batchDelaySec)
  }

  /** The generator of column `ids[d]` in run `r` when every batch lasts
      `m` seconds: batch id `r * |ids| + d + 1`, started `r` times the batch
      length plus delay after the execution time. */
  function Expected(env: Env, m: real, ids: seq<string>, r: nat, d: nat): (ctx: Context)
    requires d < |ids| && Builds(env.make)
    ensures Made(env, BatchId(|ids|, r, d), ids[d], StartOf(env, m, r)) == Ok(ctx)
  {
    Made(env, BatchId(|ids|, r, d), ids[d], StartOf(env, m, r)).value
  }

  /** Column `ids[d]` has one generator per run so far, each the expected
      one. */
  ghost predicate ColumnShaped(env: Env, m: real, s: BatchSetup, ids: seq<string>, run: nat, c: nat, d: nat)
    requires d < |ids| && Builds(env.make)
  {
    && ids[d] in s.contexts
    && |s.contexts[ids[d]]| == run + (if d < c then 1 else 0)
    && forall r :: 0 <= r < |s.contexts[ids[d]]| ==> s.contexts[ids[d]][r] == Expected(env, m, ids, r, d)
  }

  ghost predicate Shaped(env: Env, m: real, s: BatchSetup, ids: seq<string>, run: nat, c: nat)
    requires c <= |ids| && Builds(env.make)
  {
    && s.keys == (if run > 0 then ids else ids[..c])
    && forall d :: 0 <= d < |ids| && (run > 0 || d < c) ==> ColumnShaped(env, m, s, ids, run, c, d)
  }

  /** The next run starts the batch length plus the delay after the
      previous one did. */
  lemma NextStart(env: Env, m: real, ids: seq<string>, run: nat, d: nat)
    requires d < |ids| && run > 0 && Lasts(env.make, m)
    ensures |Expected(env, m, ids, run - 1, d).batchData| == 2
    ensures Expected(env, m, ids, run - 1, d).batchData[1].eventTs + env.batchDelaySec
              == StartOf(env, m, run)
  {
    var x := m + env.batchDelaySec;
    MakeExpected(env, m, ids, run - 1, d);
    assert (run - 1) as real * x + x == run as real * x;
  }

  lemma StartShape(env: Env, m: real, s: BatchSetup, ids: seq<string>, run: nat, c: nat)
    requires c < |ids| && NoDuplicates(ids) && Lasts(env.make, m) && Shaped(env, m, s, ids, run, c)
    ensures RunStart(env, s, run, ids[c]) == Ok(StartOf(env, m, run))
  {
    if run > 0 {
      assert ColumnShaped(env, m, s, ids, run, c, c);
      var prev := s.contexts[ids[c]][run - 1];
      assert prev == Expected(env, m, ids, run - 1, c);
      NextStart(env, m, ids, run, c);
      assert |prev.batchData| == 2;
      assert prev.batchData[|prev.batchData| - 1] == prev.batchData[1];
    } else {
      assert StartOf(env, m, 0) == env.executionTime;
    }
  }

  /** The step appends the expected generator to its own column ... */
  lemma StepShapeColumn(env: Env, m: real, s: BatchSetup, ids: seq<string>, run: nat, c: nat)
    requires c < |ids| && NoDuplicates(ids) && Lasts(env.make, m)
    requires Paired(s) && Shaped(env, m, s, ids, run, c)
    ensures Step(env, s, run, ids[c], BatchId(|ids|, run, c)).Ok?
    ensures ColumnShaped(env, m, Step(env, s, run, ids[c], BatchId(|ids|, run, c)).value, ids, run, c + 1, c)
  {
    StartShape(env, m, s, ids, run, c);
    if run == 0 {
      FirstColumnShape(env, m, s, ids, c);
    } else {
      assert ColumnShaped(env, m, s, ids, run, c, c);
      LaterColumnShape(env, m, s, ids, run, c);
    }
  }

  lemma FirstColumnShape(env: Env, m: real, s: BatchSetup, ids: seq<string>, c: nat)
    requires c < |ids| && Builds(env.make)
    requires RunStart(env, s, 0, ids[c]) == Ok(env.executionTime)
    ensures Step(env, s, 0, ids[c], BatchId(|ids|, 0, c)).Ok?
    ensures ColumnShaped(env, m, Step(env, s, 0, ids[c], BatchId(|ids|, 0, c)).value, ids, 0, c + 1, c)
  {
    var col, id := ids[c], BatchId(|ids|, 0, c);
    assert StartOf(env, m, 0) == env.executionTime;
    assert Made(env, id, col, env.executionTime).Ok?;
    var ctx := Made(env, id, col, env.executionTime).value;
    assert ctx == Expected(env, m, ids, 0, c);
    assert Step(env, s, 0, col, id).value.contexts[col] == [ctx];
  }

  /** A later run appends to the column's two lists and leaves the keys
      alone. */
  lemma StepLater(env: Env, s: BatchSetup, run: nat, col: string, batchId: nat, start: real)
    requires run > 0 && Paired(s) && RunStart(env, s, run, col) == Ok(start) && Made(env, batchId, col, start).Ok?
    ensures col in s.contexts && col in s.generators
    ensures var ctx := Made(env, batchId, col, start).value;
      Step(env, s, run, col, batchId)
        == Ok(BatchSetup(s.keys, s.contexts[col := s.contexts[col] + [ctx]],
                         s.generators[col := s.generators[col] + [StreamRows(ctx.phaseData, false)]]))
  {
  }

  lemma LaterColumnShape(env: Env, m: real, s: BatchSetup, ids: seq<string>, run: nat, c: nat)
    requires c < |ids| && run > 0 && Builds(env.make) && Paired(s)
    requires RunStart(env, s, run, ids[c]) == Ok(StartOf(env, m, run))
    requires ColumnShaped(env, m, s, ids, run, c, c)
    ensures Step(env, s, run, ids[c], BatchId(|ids|, run, c)).Ok?
    ensures ColumnShaped(env, m, Step(env, s, run, ids[c], BatchId(|ids|, run, c)).value, ids, run, c + 1, c)
  {
    var col := ids[c];
    var start := StartOf(env, m, run);
    var id := BatchId(|ids|, run, c);
    MakeExpected(env, m, ids, run, c);
    StepLater(env, s, run, col, id, start);
    AppendExpected(env, m, ids, s.contexts[col], run, c);
  }

  lemma MakeExpected(env: Env, m: real, ids: seq<string>, r: nat, d: nat)
    requires d < |ids| && Builds(env.make)
    ensures Made(env, BatchId(|ids|, r, d), ids[d], StartOf(env, m, r)).Ok?
    ensures Made(env, BatchId(|ids|, r, d), ids[d], StartOf(env, m, r)).value
              == Expected(env, m, ids, r, d)
  {
    var e := Expected(env, m, ids, r, d);
  }

  lemma AppendExpected(env: Env, m: real, ids: seq<string>, prev: seq<Context>, run: nat, c: nat)
    requires c < |ids| && Builds(env.make) && |prev| == run
    requires forall k :: 0 <= k < run ==> prev[k] == Expected(env, m, ids, k, c)
    ensures forall k :: 0 <= k < run + 1 ==> (prev + [Expected(env, m, ids, run, c)])[k] == Expected(env, m, ids, k, c)
  {
  }

  /** ... and leaves every other column as it was. */
  lemma StepShapeOther(env: Env, m: real, s: BatchSetup, ids: seq<string>, run: nat, c: nat, d: nat)
    requires c < |ids| && d < |ids| && d != c && (run > 0 || d < c) && NoDuplicates(ids) && Builds(env.make)
    requires ColumnShaped(env, m, s, ids, run, c, d)
    requires Step(env, s, run, ids[c], BatchId(|ids|, run, c)).Ok?
    ensures ColumnShaped(env, m, Step(env, s, run, ids[c], BatchId(|ids|, run, c)).value, ids, run, c + 1, d)
  {
    var r := Step(env, s, run, ids[c], BatchId(|ids|, run, c)).value;
    assert ids[d] != ids[c];
    assert r.contexts[ids[d]] == s.contexts[ids[d]];
  }

  lemma StepShape(env: Env, m: real, s: BatchSetup, ids: seq<string>, run: nat, c: nat)
    requires c < |ids| && NoDuplicates(ids) && Lasts(env.make, m)
    requires KeysListed(s) && Paired(s) && Shaped(env, m, s, ids, run, c)
    ensures Step(env, s, run, ids[c], BatchId(|ids|, run, c)).Ok?
    ensures Shaped(env, m, Step(env, s, run, ids[c], BatchId(|ids|, run, c)).value, ids, run, c + 1)
  {
    var col, next := ids[c], c + 1;
    StepShapeColumn(env, m, s, ids, run, c);
    var r := Step(env, s, run, col, BatchId(|ids|, run, c)).value;
    if run == 0 {
      assert col !in ids[..c];
      assert ids[..c + 1] == ids[..c] + [col];
    } else {
      assert ColumnShaped(env, m, s, ids, run, c, c);
    }
    forall d | 0 <= d < |ids| && (run > 0 || d < next) && d != c
      ensures ColumnShaped(env, m, r, ids, run, next, d)
    {
      StepShapeOther(env, m, s, ids, run, c, d);
    }
  }

  lemma ShapedNext(env: Env, m: real, ids: seq<string>, run: nat, c: nat)
    requires c < |ids| && NoDuplicates(ids) && Lasts(env.make, m)
    requires ColumnsUpTo(env, ids, run, c).Ok? && Shaped(env, m, ColumnsUpTo(env, ids, run, c).value, ids, run, c)
    ensures ColumnsUpTo(env, ids, run, c + 1).Ok? && Shaped(env, m, ColumnsUpTo(env, ids, run, c + 1).value, ids, run, c + 1)
  {
    SetupInvariants(env, ids, run, c);
    StepShape(env, m, ColumnsUpTo(env, ids, run, c).value, ids, run, c);
  }

  lemma {:induction false} ShapedUpTo(env: Env, m: real, ids: seq<string>, run: nat, c: nat)
    requires c <= |ids| && NoDuplicates(ids) && Lasts(env.make, m)
    ensures ColumnsUpTo(env, ids, run, c).Ok?
    ensures Shaped(env, m, ColumnsUpTo(env, ids, run, c).value, ids, run, c)
    decreases run, c
  {
    if c == 0 {
      if run > 0 {
        ShapedUpTo(env, m, ids, run - 1, |ids|);
        var s := ColumnsUpTo(env, ids, run - 1, |ids|).value;
        assert ids[..|ids|] == ids;
        forall d | 0 <= d < |ids|
          ensures ColumnShaped(env, m, s, ids, run, 0, d)
        {
          assert ColumnShaped(env, m, s, ids, run - 1, |ids|, d);
        }
      }
    } else {
      ShapedUpTo(env, m, ids, run, c - 1);
      ShapedNext(env, m, ids, run, c - 1);
    }
  }

  /** With distinct column ids and batches lasting `m` seconds: the keys are
      the column ids in order; every column has exactly one generator per
      run, in run order; the one of column `d` in run `r` has batch id
      `r * |ids| + d + 1` (run-major, column-minor, from 1) and starts `r`
      times `m` plus the delay after the execution time; and its
      phase-event generator yields that generator's phase events. */
  lemma BuildShape(env: Env, m: real, ids: seq<string>, runs: nat)
    requires NoDuplicates(ids) && Lasts(env.make, m) && runs > 0
    ensures Build(env, ids, runs).Ok?
    ensures var s := Build(env, ids, runs).value;
      && s.keys == ids
      && forall d :: 0 <= d < |ids| ==>
           && ids[d] in s.contexts && ids[d] in s.generators
           && |s.contexts[ids[d]]| == runs && |s.generators[ids[d]]| == runs
           && forall r :: 0 <= r < runs ==>
                && s.contexts[ids[d]][r] == Expected(env, m, ids, r, d)
                && s.generators[ids[d]][r] == Expected(env, m, ids, r, d).phaseData
  {
    ShapedUpTo(env, m, ids, runs, 0);
    SetupInvariants(env, ids, runs, 0);
    var s := Build(env, ids, runs).value;
    forall d | 0 <= d < |ids|
      ensures ids[d] in s.contexts && |s.contexts[ids[d]]| == runs
      ensures forall r :: 0 <= r < runs ==> s.contexts[ids[d]][r] == Expected(env, m, ids, r, d)
    {
      assert ColumnShaped(env, m, s, ids, runs, 0, d);
    }
  }

  /** Batch ids are distinct across runs and columns. */
  lemma BatchIdsDistinct(n: nat, r1: nat, d1: nat, r2: nat, d2: nat)
    requires d1 < n && d2 < n
    requires BatchId(n, r1, d1) == BatchId(n, r2, d2)
    ensures r1 == r2 && d1 == d2
  {
    if r1 < r2 {
      MulMonotone(r1 + 1, r2, n);
    } else if r2 < r1 {
      MulMonotone(r2 + 1, r1, n);
    }
  }

  lemma NextRunIds(run: nat, n: nat)
    ensures run * n + n == (run + 1) * n
  {
  }

  lemma MulMonotone(a: nat, b: nat, n: nat)
    requires a <= b
    ensures a * n <= b * n
  {
  }

  // ---------------------------------------------------------------------

  /** One pass of the inner loop of `build_batch_context` on the two
      dictionaries: the start time, the new generator, and the appends. */
  method AddBatch(env: Env, s: BatchSetup, run: nat, col: string, batchId: nat) returns (r: Result<BatchSetup>)
    ensures r == Step(env, s, run, col, batchId)
  {
    var keys: seq<string>, contexts: map<string, seq<Context>>, generators := s.keys, s.contexts, s.generators;
    var start: real;
    if run == 0 {
      start := env.executionTime;
    } else {
      if col !in contexts {
        return Err(KeyError(col));
      }
      if |contexts[col]| <= run - 1 {
        return Err(IndexError);
      }
      var prev := contexts[col][run - 1].batchData;
      if prev == [] {
        return Err(IndexError);
      }
      start := prev[|prev| - 1].eventTs + env.batchDelaySec;
    }
    var ctx := Made(env, batchId, col, start);
    if ctx.Err? {
      return Err(ctx.error);
    }
    var gen := StreamRows(ctx.value.phaseData, false);
    if run == 0 {
      // both lists are reset to [] before the append
      if col !in contexts {
        keys := keys + [col];
      }
      contexts := contexts[col := [ctx.value]];
      generators := generators[col := [gen]];
    } else {
      if col !in generators {
        return Err(KeyError(col));
      }
      contexts := contexts[col := contexts[col] + [ctx.value]];
      generators := generators[col := generators[col] + [gen]];
    }
    r := Ok(BatchSetup(keys, contexts, generators));
  }

  /** `build_batch_context`: the nested loops over runs and column ids,
      calling the generator constructor `env.make`. */
  method BuildBatchContext(env: Env, ids: seq<string>, runs: nat) returns (r: Result<BatchSetup>)
    ensures r == Build(env, ids, runs)
  {
    var setup := Empty;
    var batchId := 0;
    for run := 0 to runs
      invariant ColumnsUpTo(env, ids, run, 0) == Ok(setup)
      invariant batchId == run * |ids|
    {
      var next;
      next, batchId := AddRun(env, ids, run, setup, batchId);
      if next.Err? {
        ErrorPersists(env, ids, run + 1, 0, runs, 0);
        return next;
      }
      setup := next.value;
    }
    r := Ok(setup);
  }

  /** The inner loop of `build_batch_context`: run `run` over every column
      id, counting the batch id up by one per column. */
  method AddRun(env: Env, ids: seq<string>, run: nat, setup0: BatchSetup, batchId0: nat)
    returns (r: Result<BatchSetup>, batchId: nat)
    requires ColumnsUpTo(env, ids, run, 0) == Ok(setup0) && batchId0 == run * |ids|
    ensures r == ColumnsUpTo(env, ids, run + 1, 0)
    ensures batchId == (run + 1) * |ids|
  {
    var setup := setup0;
    batchId := batchId0;
    for c := 0 to |ids|
      invariant ColumnsUpTo(env, ids, run, c) == Ok(setup)
      invariant batchId == run * |ids| + c
    {
      batchId := batchId + 1;
      var next := AddBatch(env, setup, run, ids[c], batchId);
      assert ColumnsUpTo(env, ids, run, c + 1) == next by {
        assert batchId == BatchId(|ids|, run, c);
      }
      if next.Err? {
        ErrorPersists(env, ids, run, c + 1, run + 1, 0);
        batchId := (run + 1) * |ids|;
        return next, batchId;
      }
      setup := next.value;
    }
    NextRunIds(run, |ids|);
    r := Ok(setup);
  }
}
