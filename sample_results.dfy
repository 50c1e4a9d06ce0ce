/** The sample-result producer of the data-generation package: it builds the
    protein-concentration results of every chromatography run (a
    "pre-affinity" sample before the run and a "post-affinity" sample after
    it, each retested until the instrument scan does not fail), streams them
    in date order onto a queue closed by one EOF, and names the file each
    result is uploaded to.

    The instrument's `generate_sample_result` is not defined in the modelled
    files: it is the oracle `scan`, which gives the `scan_result` text of
    one measurement. The result records carry the arguments the measurement
    was made with, on the assumption that the oracle echoes the test id and
    dates the record with the measurement time. `get_event_generator` is
    not defined in the modelled files either; it is taken to yield the
    sorted results whole and in order. */
module SampleResults {
  import opened Common
  import opened Queues
  import Sorting

  /** The arguments of one call of the instrument's result generator. */
  datatype Measurement = Measurement(
    testId: nat,
    instrumentId: string,
    sampleId: nat,
    sampleType: string,
    batchId: nat,
    columnId: string,
    ts: real,
    titer: real,
    badRun: bool)

  /** One result record: the measurement and the scan result it got. */
  datatype Sample = Sample(m: Measurement, scanResult: string)

  /** The instrument: the `scan_result` it reports for a measurement. */
  type Scanner = Measurement -> string

  predicate Failed(s: Sample)
  {
    s.scanResult == "fail"
  }

  /** The measurement the instrument is asked for next when `m` failed: the
      next test id, `delay` seconds later. */
  function NextTest(m: Measurement, delay: real): Measurement
  {
    m.(testId := m.testId + 1, ts := m.ts + delay)
  }

  /** The `k`-th retest of `m` (the 0-th is `m` itself). */
  function Retest(m: Measurement, delay: real, k: nat): Measurement
  {
    if k == 0 then m else NextTest(Retest(m, delay, k - 1), delay)
  }

  /** Some retest of `m` passes the scan. */
  ghost predicate Passes(scan: Scanner, m: Measurement, delay: real)
  {
    exists k: nat :: scan(Retest(m, delay, k)) != "fail"
  }

  /** Every retest loop ends: from any measurement some retest passes. */
  ghost predicate Recovers(scan: Scanner, delay: real)
  {
    forall m: Measurement :: Passes(scan, m, delay)
  }

  /** A retest that passes (not necessarily the first); it bounds the loop. */
  ghost function SomePass(scan: Scanner, m: Measurement, delay: real): (k: nat)
    requires Passes(scan, m, delay)
    ensures scan(Retest(m, delay, k)) != "fail"
  {
    var k: nat :| scan(Retest(m, delay, k)) != "fail";
    k
  }

  lemma {:induction false} NthRetest(m: Measurement, delay: real, k: nat)
    ensures Retest(m, delay, k) == m.(testId := m.testId + k, ts := m.ts + k as real * delay)
  {
    if k > 0 {
      NthRetest(m, delay, k - 1);
      assert (k - 1) as real * delay + delay == k as real * delay;
    }
  }

  /** The results of the retests of `m` from the `i`-th on, up to the first
      whose scan does not fail. */
  function CollectFrom(scan: Scanner, m: Measurement, delay: real, i: nat): (r: seq<Sample>)
    requires Passes(scan, m, delay)
    requires i <= SomePass(scan, m, delay)
    ensures |r| >= 1
    ensures forall j :: 0 <= j < |r| ==> r[j].m == Retest(m, delay, i + j) && r[j].scanResult == scan(r[j].m)
    ensures forall j :: 0 <= j < |r| - 1 ==> Failed(r[j])
    ensures !Failed(r[|r| - 1])
    decreases SomePass(scan, m, delay) - i
  {
    var t := Retest(m, delay, i);
    var s := Sample(t, scan(t));
    if !Failed(s) then [s]
    else
      assert i < SomePass(scan, m, delay);
      [s] + CollectFrom(scan, m, delay, i + 1)
  }

  /** `collect_results_by_sample`: the first measurement and its retests,
      up to the first whose scan does not fail. */
  function Collect(scan: Scanner, m: Measurement, delay: real): (r: seq<Sample>)
    requires Passes(scan, m, delay)
    ensures |r| >= 1
    ensures forall j :: 0 <= j < |r| - 1 ==> Failed(r[j])
    ensures !Failed(r[|r| - 1])
  {
    CollectFrom(scan, m, delay, 0)
  }

  /** The `j`-th result of a sample has test id `test_id + j` and was
      measured `j` retest delays after the first. */
  lemma CollectRetests(scan: Scanner, m: Measurement, delay: real)
    requires Passes(scan, m, delay)
    ensures forall j :: 0 <= j < |Collect(scan, m, delay)| ==>
      Collect(scan, m, delay)[j].m == m.(testId := m.testId + j, ts := m.ts + j as real * delay)
      && Collect(scan, m, delay)[j].scanResult == scan(Collect(scan, m, delay)[j].m)
  {
    var r := Collect(scan, m, delay);
    forall j | 0 <= j < |r| ensures r[j].m == m.(testId := m.testId + j, ts := m.ts + j as real * delay) {
      NthRetest(m, delay, j);
    }
  }

  /** The `while test_failed` loop of `collect_results_by_sample`. */
  method CollectResultsBySample(scan: Scanner, m: Measurement, delay: real) returns (results: seq<Sample>)
    requires Passes(scan, m, delay)
    ensures results == Collect(scan, m, delay)
  {
    ghost var bound := SomePass(scan, m, delay);
    var testId := m.testId;
    var first := Sample(m, scan(m));
    results := [first];
    var retestTs := m.ts;
    var testFailed := first.scanResult == "fail";
    ghost var i: nat := 0;
    while testFailed
      invariant i <= bound
      invariant |results| == i + 1
      invariant forall j {:trigger results[j]} :: 0 <= j < |results| ==>
        results[j].m == Retest(m, delay, j) && results[j].scanResult == scan(results[j].m)
      invariant forall j :: 0 <= j < i ==> Failed(results[j])
      invariant m.(testId := testId, ts := retestTs) == Retest(m, delay, i)
      invariant testFailed == Failed(results[i])
      decreases bound - i
    {
      assert i != bound;
      testId := testId + 1;
      retestTs := retestTs + delay;
      var measurement := m.(testId := testId, ts := retestTs);
      assert measurement == Retest(m, delay, i + 1);
      var retest := Sample(measurement, scan(measurement));
      results := results + [retest];
      testFailed := retest.scanResult == "fail";
      i := i + 1;
    }
    CollectCharacterized(scan, m, delay, 0, results);
  }

  /** The retest results are determined by their shape: a non-empty run of
      results of successive retests in which only the last scan passes is
      exactly what `CollectFrom` gives. */
  lemma CollectCharacterized(scan: Scanner, m: Measurement, delay: real, i: nat, results: seq<Sample>)
    requires Passes(scan, m, delay)
    requires i <= SomePass(scan, m, delay)
    requires |results| >= 1
    requires forall j :: 0 <= j < |results| ==>
      results[j].m == Retest(m, delay, i + j) && results[j].scanResult == scan(results[j].m)
    requires forall j :: 0 <= j < |results| - 1 ==> Failed(results[j])
    requires !Failed(results[|results| - 1])
    ensures results == CollectFrom(scan, m, delay, i)
  {
    var c := CollectFrom(scan, m, delay, i);
    forall j | 0 <= j < |c| && j < |results| ensures c[j] == results[j] {
      assert c[j].m == results[j].m;
    }
    assert |c| == |results|;
  }

  /** The configuration `build_sample_dataset` is called with (less the
      generator's template and noise, which belong to the oracle). */
  datatype Config = Config(
    runs: nat,
    columns: seq<string>,
    buffer: real,
    quality: map<string, seq<string>>,
    retestDelay: real,
    duration: real,
    batchDelay: real,
    execTime: real)

  /** The running `batch_id`, `sample_id` and `test_id` counters. */
  datatype Counters = Counters(batchId: nat, sampleId: nat, testId: nat)

  /** The pre- and post-sampling times of a run. */
  function SampleTimes(c: Config, run: nat): (t: (real, real))
    ensures t.1 - t.0 == c.duration + 2.0 * c.buffer
    ensures run == 0 ==> t.0 == c.execTime - c.buffer
  {
    if run == 0 then
      (c.execTime - c.buffer, c.execTime + (c.duration + c.buffer))
    else
      var start := c.execTime + (run + 1) as real * (c.duration + c.batchDelay);
      (start - c.buffer, start + (c.duration + c.buffer))
  }

  /** The instrument of the column at position `idx` (numbered from 1). */
  function InstrumentId(idx: nat): string
  {
    "solovpe_" + NatToString(idx + 1)
  }

  lemma InstrumentIdsDistinct(i: nat, j: nat)
    requires i != j
    ensures InstrumentId(i) != InstrumentId(j)
  {
    if InstrumentId(i) == InstrumentId(j) {
      assert InstrumentId(i)[8..] == NatToString(i + 1);
      assert InstrumentId(j)[8..] == NatToString(j + 1);
      NatToStringInjective(i + 1, j + 1);
    }
  }

  function PostTiter(badRun: bool): real
  {
    if badRun then 4.5 else 5.0
  }

  /** The quality entry of a column for a run exists. */
  ghost predicate QualityKnown(c: Config, run: nat, idx: nat)
    requires idx < |c.columns|
  {
    c.columns[idx] in c.quality && run < |c.quality[c.columns[idx]]|
  }

  /** What line 121 of the source reads the test id from: as written, the
      previous column's post-sample result (unbound on the first column);
      evidently intended, the pre-sample result just collected. */
  datatype TestIdSource = PreviousPost | CurrentPre

  /** The results of one (run, column) step. */
  datatype Pair = Pair(pre: seq<Sample>, post: seq<Sample>)

  /** The first pre-sample measurement of a step. */
  function PreMeasurement(c: Config, run: nat, idx: nat, ctr: Counters): Measurement
    requires idx < |c.columns|
  {
    Measurement(ctr.testId + 1, InstrumentId(idx), ctr.sampleId + 1, "pre-affinity",
                ctr.batchId + 1, c.columns[idx], SampleTimes(c, run).0, 1.0, false)
  }

  /** The first post-sample measurement of a step; the run's quality only
      changes the target titer, never the `bad_run` flag, which keeps its
      default. */
  function PostMeasurement(c: Config, run: nat, idx: nat, ctr: Counters, testId: nat, titer: real): Measurement
    requires idx < |c.columns|
  {
    Measurement(testId + 1, InstrumentId(idx), ctr.sampleId + 2, "post-affinity",
                ctr.batchId + 1, c.columns[idx], SampleTimes(c, run).1, titer, false)
  }

  /** Every sample of `xs` belongs to the same batch, sample, instrument and
      column, and was measured at the same titer and of the same type. */
  ghost predicate SameSample(xs: seq<Sample>, m: Measurement)
  {
    forall i :: 0 <= i < |xs| ==>
      xs[i].m.batchId == m.batchId && xs[i].m.sampleId == m.sampleId && xs[i].m.sampleType == m.sampleType
      && xs[i].m.instrumentId == m.instrumentId && xs[i].m.columnId == m.columnId
      && xs[i].m.titer == m.titer && xs[i].m.badRun == m.badRun
  }

  /** Test ids run on without a gap from `first`. */
  ghost predicate Consecutive(xs: seq<Sample>, first: nat)
  {
    forall i :: 0 <= i < |xs| ==> xs[i].m.testId == first + i
  }

  /** One iteration of the inner loop of `build_sample_dataset`. */
  function PairStep(v: TestIdSource, c: Config, scan: Scanner, run: nat, idx: nat, ctr: Counters, prevPost: Option<nat>): (r: Result<Pair>)
    requires run < c.runs && idx < |c.columns|
    requires Recovers(scan, c.retestDelay)
    ensures v == PreviousPost && prevPost == None ==> r == Err(UnboundLocalError("cur_post_sample_result"))
    ensures v == CurrentPre ==> (r.Ok? <==> QualityKnown(c, run, idx))
    ensures (v == CurrentPre || prevPost.Some?) && !QualityKnown(c, run, idx) ==>
      r == Err(if c.columns[idx] in c.quality then IndexError else KeyError(c.columns[idx]))
    ensures r.Ok? ==> |r.value.pre| >= 1 && |r.value.post| >= 1
  {
    assert Passes(scan, PreMeasurement(c, run, idx, ctr), c.retestDelay);
    var pre := Collect(scan, PreMeasurement(c, run, idx, ctr), c.retestDelay);
    var testId: Result<nat> :=
      if v == CurrentPre then Ok(pre[|pre| - 1].m.testId)
      else if prevPost.None? then Err(UnboundLocalError("cur_post_sample_result"))
      else Ok(prevPost.value);
    var col := c.columns[idx];
    if testId.Err? then Err(testId.error)
    else if col !in c.quality then Err(KeyError(col))
    else if run >= |c.quality[col]| then Err(IndexError)
    else
      var m := PostMeasurement(c, run, idx, ctr, testId.value, PostTiter(c.quality[col][run] == "bad"));
      assert Passes(scan, m, c.retestDelay);
      Ok(Pair(pre, Collect(scan, m, c.retestDelay)))
  }

  /** The pre-sample is taken `sampling_ts_buffer_sec` before the run's
      start and the post-sample `batch_duration_sec + sampling_ts_buffer_sec`
      after it. */
  lemma PairStepTimes(v: TestIdSource, c: Config, scan: Scanner, run: nat, idx: nat, ctr: Counters, prevPost: Option<nat>)
    requires run < c.runs && idx < |c.columns|
    requires Recovers(scan, c.retestDelay)
    requires PairStep(v, c, scan, run, idx, ctr, prevPost).Ok?
    ensures var p := PairStep(v, c, scan, run, idx, ctr, prevPost).value;
      p.pre[0].m.ts == SampleTimes(c, run).0 && p.post[0].m.ts == SampleTimes(c, run).1
      && p.post[0].m.ts - p.pre[0].m.ts == c.duration + 2.0 * c.buffer
  {
    var p := PairStep(v, c, scan, run, idx, ctr, prevPost).value;
    PairStepParts(v, c, scan, run, idx, ctr, prevPost);
    var titer := PostTiter(c.quality[c.columns[idx]][run] == "bad");
    CollectKeeps(scan, PreMeasurement(c, run, idx, ctr), c.retestDelay);
    CollectKeeps(scan, PostMeasurement(c, run, idx, ctr, PostTestId(v, p.pre, prevPost), titer), c.retestDelay);
  }

  /** The results of one sample all keep its batch, sample, instrument,
      column and titer, and take consecutive test ids from the first. */
  lemma CollectKeeps(scan: Scanner, m: Measurement, delay: real)
    requires Passes(scan, m, delay)
    ensures SameSample(Collect(scan, m, delay), m)
    ensures Consecutive(Collect(scan, m, delay), m.testId)
    ensures Collect(scan, m, delay)[0].m == m
  {
    CollectRetests(scan, m, delay);
  }

  /** The test id the post-sample starts after. */
  function PostTestId(v: TestIdSource, pre: seq<Sample>, prevPost: Option<nat>): nat
    requires |pre| >= 1
    requires v == CurrentPre || prevPost.Some?
  {
    if v == CurrentPre then pre[|pre| - 1].m.testId else prevPost.value
  }

  /** A successful step is the retest run of its pre-sample followed by that
      of its post-sample. */
  lemma PairStepParts(v: TestIdSource, c: Config, scan: Scanner, run: nat, idx: nat, ctr: Counters, prevPost: Option<nat>)
    requires run < c.runs && idx < |c.columns|
    requires Recovers(scan, c.retestDelay)
    requires PairStep(v, c, scan, run, idx, ctr, prevPost).Ok?
    ensures var p := PairStep(v, c, scan, run, idx, ctr, prevPost).value;
      var pre := PreMeasurement(c, run, idx, ctr);
      Passes(scan, pre, c.retestDelay)
      && p.pre == Collect(scan, pre, c.retestDelay)
      && (v == CurrentPre || prevPost.Some?)
      && QualityKnown(c, run, idx)
      && var post := PostMeasurement(c, run, idx, ctr, PostTestId(v, p.pre, prevPost),
                                     PostTiter(c.quality[c.columns[idx]][run] == "bad"));
         Passes(scan, post, c.retestDelay)
         && p.post == Collect(scan, post, c.retestDelay)
  {
  }

  /** Every pre-sample result of a step is of the step's batch and sample
      and measured at titer 1.0; every post-sample result is of the same
      batch, of the next sample id, and measured at 4.5 when the column's run
      is "bad" and 5.0 otherwise. */
  lemma PairStepSamples(v: TestIdSource, c: Config, scan: Scanner, run: nat, idx: nat, ctr: Counters, prevPost: Option<nat>)
    requires run < c.runs && idx < |c.columns|
    requires Recovers(scan, c.retestDelay)
    requires PairStep(v, c, scan, run, idx, ctr, prevPost).Ok?
    ensures var p := PairStep(v, c, scan, run, idx, ctr, prevPost).value;
      SameSample(p.pre, PreMeasurement(c, run, idx, ctr))
      && QualityKnown(c, run, idx)
      && SameSample(p.post, PostMeasurement(c, run, idx, ctr, 0, PostTiter(c.quality[c.columns[idx]][run] == "bad")))
  {
    var p := PairStep(v, c, scan, run, idx, ctr, prevPost).value;
    PairStepParts(v, c, scan, run, idx, ctr, prevPost);
    var titer := PostTiter(c.quality[c.columns[idx]][run] == "bad");
    var post := PostMeasurement(c, run, idx, ctr, PostTestId(v, p.pre, prevPost), titer);
    CollectKeeps(scan, PreMeasurement(c, run, idx, ctr), c.retestDelay);
    CollectKeeps(scan, post, c.retestDelay);
  }

  /** With line 121 corrected, the tests of a step take consecutive ids
      following the last test before it. */
  lemma PairStepTestIds(c: Config, scan: Scanner, run: nat, idx: nat, ctr: Counters, prevPost: Option<nat>)
    requires run < c.runs && idx < |c.columns|
    requires Recovers(scan, c.retestDelay)
    requires PairStep(CurrentPre, c, scan, run, idx, ctr, prevPost).Ok?
    ensures var p := PairStep(CurrentPre, c, scan, run, idx, ctr, prevPost).value;
      Consecutive(p.pre + p.post, ctr.testId + 1)
  {
    var p := PairStep(CurrentPre, c, scan, run, idx, ctr, prevPost).value;
    PairStepParts(CurrentPre, c, scan, run, idx, ctr, prevPost);
    var titer := PostTiter(c.quality[c.columns[idx]][run] == "bad");
    var post := PostMeasurement(c, run, idx, ctr, PostTestId(CurrentPre, p.pre, prevPost), titer);
    CollectKeeps(scan, PreMeasurement(c, run, idx, ctr), c.retestDelay);
    CollectKeeps(scan, post, c.retestDelay);
    ConsecutiveAppend(p.pre, p.post, ctr.testId + 1);
  }

  lemma ConsecutiveAppend(xs: seq<Sample>, ys: seq<Sample>, first: nat)
    requires |xs| >= 1
    requires Consecutive(xs, first)
    requires Consecutive(ys, xs[|xs| - 1].m.testId + 1)
    ensures Consecutive(xs + ys, first)
  {
    forall i | 0 <= i < |xs + ys| ensures (xs + ys)[i].m.testId == first + i {
      if i >= |xs| {
        assert (xs + ys)[i] == ys[i - |xs|];
      }
    }
  }

  /** The counters after a step. */
  function After(ctr: Counters, p: Pair): Counters
    requires |p.post| >= 1
  {
    Counters(ctr.batchId + 1, ctr.sampleId + 2, p.post[|p.post| - 1].m.testId)
  }

  function Prepend<T>(xs: seq<T>, r: Result<seq<T>>): Result<seq<T>>
  {
    if r.Err? then r else Ok(xs + r.value)
  }

  lemma {:induction false} PrependTwice<T>(xs: seq<T>, ys: seq<T>, r: Result<seq<T>>)
    ensures Prepend(xs, Prepend(ys, r)) == Prepend(xs + ys, r)
  {
    if r.Ok? {
      assert xs + (ys + r.value) == (xs + ys) + r.value;
    }
  }

  /** One (run, column) step of the builder, given the position, the
      counters before it and the test id of the last post-sample result. */
  type Step = (nat, nat, Counters, Option<nat>) -> Result<Pair>

  /** The nested `for` loops of `build_sample_dataset` from column `idx` of
      run `run` on: each step's results are appended in order, and the first
      step that raises ends the build. Reading the last post-sample test id
      of an empty result list raises `IndexError`, as `[-1]` does. */
  function Dataset(step: Step, c: Config, run: nat, idx: nat, ctr: Counters, prevPost: Option<nat>): Result<seq<Sample>>
    decreases c.runs - run, |c.columns| - idx
  {
    if run >= c.runs then Ok([])
    else if idx >= |c.columns| then Dataset(step, c, run + 1, 0, ctr, prevPost)
    else
      match step(run, idx, ctr, prevPost)
      case Err(e) => Err(e)
      case Ok(p) =>
        if |p.post| == 0 then Err(IndexError)
        else Prepend(p.pre + p.post, Dataset(step, c, run, idx + 1, After(ctr, p), Some(p.post[|p.post| - 1].m.testId)))
  }

  /** The builder's step: `PairStep` at every position of the loops. */
  ghost function StepOf(v: TestIdSource, c: Config, scan: Scanner): Step
    requires Recovers(scan, c.retestDelay)
  {
    (run: nat, idx: nat, ctr: Counters, prevPost: Option<nat>) =>
      if run < c.runs && idx < |c.columns| then PairStep(v, c, scan, run, idx, ctr, prevPost) else Err(IndexError)
  }

  const Start := Counters(0, 0, 0)

  /** The number of (run, column) steps from column `idx` of run `run` on. */
  function Remaining(c: Config, run: nat, idx: nat): nat
    decreases c.runs - run, |c.columns| - idx
  {
    if run >= c.runs then 0
    else if idx >= |c.columns| then Remaining(c, run + 1, 0)
    else 1 + Remaining(c, run, idx + 1)
  }

  lemma {:induction false} RemainingSteps(c: Config, run: nat, idx: nat)
    requires run <= c.runs && idx <= |c.columns|
    ensures Remaining(c, run, idx) == if run == c.runs then 0 else (c.runs - run - 1) * |c.columns| + (|c.columns| - idx)
    decreases c.runs - run, |c.columns| - idx
  {
    if run < c.runs {
      if idx == |c.columns| {
        RemainingSteps(c, run + 1, 0);
      } else {
        RemainingSteps(c, run, idx + 1);
      }
    }
  }

  /** Every quality entry the steps from (`run`, `idx`) on look up exists. */
  ghost predicate QualityFrom(c: Config, run: nat, idx: nat)
  {
    (forall i :: idx <= i < |c.columns| && run < c.runs ==> QualityKnown(c, run, i))
    && (forall r, i :: run < r < c.runs && 0 <= i < |c.columns| ==> QualityKnown(c, r, i))
  }

  lemma QualityFromNextColumn(c: Config, run: nat, idx: nat)
    requires run < c.runs && idx < |c.columns|
    ensures QualityFrom(c, run, idx) <==> QualityKnown(c, run, idx) && QualityFrom(c, run, idx + 1)
  {
  }

  lemma QualityFromNextRun(c: Config, run: nat, idx: nat)
    requires run < c.runs && idx >= |c.columns|
    ensures QualityFrom(c, run, idx) <==> QualityFrom(c, run + 1, 0)
  {
  }

  /** A step succeeds exactly where the quality entry of its position
      exists, and then has a post-sample result. */
  ghost predicate FailsOnQuality(step: Step, c: Config)
  {
    forall run: nat, idx: nat, ctr: Counters, prevPost: Option<nat> | run < c.runs && idx < |c.columns| ::
      (step(run, idx, ctr, prevPost).Ok? <==> QualityKnown(c, run, idx))
      && (step(run, idx, ctr, prevPost).Ok? ==> |step(run, idx, ctr, prevPost).value.post| >= 1)
  }

  /** The loops build a dataset exactly when no step raises. */
  lemma {:induction false} DatasetDefined(step: Step, c: Config, run: nat, idx: nat, ctr: Counters, prevPost: Option<nat>)
    requires FailsOnQuality(step, c)
    ensures Dataset(step, c, run, idx, ctr, prevPost).Ok? <==> QualityFrom(c, run, idx)
    decreases c.runs - run, |c.columns| - idx
  {
    if run < c.runs {
      if idx >= |c.columns| {
        DatasetDefined(step, c, run + 1, 0, ctr, prevPost);
        QualityFromNextRun(c, run, idx);
      } else {
        QualityFromNextColumn(c, run, idx);
        var r := step(run, idx, ctr, prevPost);
        if r.Ok? {
          var p := r.value;
          DatasetDefined(step, c, run, idx + 1, After(ctr, p), Some(p.post[|p.post| - 1].m.testId));
        }
      }
    }
  }

  /** Each step's tests take consecutive ids after the last test before it. */
  ghost predicate NumbersTests(step: Step)
  {
    forall run: nat, idx: nat, ctr: Counters, prevPost: Option<nat> | step(run, idx, ctr, prevPost).Ok? ::
      Consecutive(step(run, idx, ctr, prevPost).value.pre + step(run, idx, ctr, prevPost).value.post, ctr.testId + 1)
  }

  /** With steps that number their tests on, the whole dataset numbers its
      tests on from the counter it starts with. */
  lemma {:induction false} DatasetTestIds(step: Step, c: Config, run: nat, idx: nat, ctr: Counters, prevPost: Option<nat>)
    requires NumbersTests(step)
    requires Dataset(step, c, run, idx, ctr, prevPost).Ok?
    ensures Consecutive(Dataset(step, c, run, idx, ctr, prevPost).value, ctr.testId + 1)
    decreases c.runs - run, |c.columns| - idx
  {
    if run < c.runs {
      if idx >= |c.columns| {
        DatasetTestIds(step, c, run + 1, 0, ctr, prevPost);
      } else {
        var p := step(run, idx, ctr, prevPost).value;
        var ctr' := After(ctr, p);
        var prevPost' := Some(p.post[|p.post| - 1].m.testId);
        var rest := Dataset(step, c, run, idx + 1, ctr', prevPost').value;
        DatasetTestIds(step, c, run, idx + 1, ctr', prevPost');
        var xs := p.pre + p.post;
        assert Consecutive(xs, ctr.testId + 1);
        assert ctr'.testId == ctr.testId + |xs| by {
          assert xs[|xs| - 1] == p.post[|p.post| - 1];
        }
        ConsecutiveAppend(xs, rest, ctr.testId + 1);
      }
    }
  }

  /** The batch and sample ids of a step's results: all of batch
      `batch_id + 1`, the pre-sample results of sample `sample_id + 1` and
      the post-sample results of sample `sample_id + 2`. */
  ghost predicate StepIds(p: Pair, ctr: Counters)
  {
    (forall i :: 0 <= i < |p.pre| ==>
      p.pre[i].m.batchId == ctr.batchId + 1 && p.pre[i].m.sampleId == ctr.sampleId + 1
      && p.pre[i].m.sampleType == "pre-affinity")
    && (forall i :: 0 <= i < |p.post| ==>
      p.post[i].m.batchId == ctr.batchId + 1 && p.post[i].m.sampleId == ctr.sampleId + 2
      && p.post[i].m.sampleType == "post-affinity")
  }

  ghost predicate NumbersSamples(step: Step)
  {
    forall run: nat, idx: nat, ctr: Counters, prevPost: Option<nat> | step(run, idx, ctr, prevPost).Ok? ::
      StepIds(step(run, idx, ctr, prevPost).value, ctr)
  }

  /** Sample ids pair up with batch ids: the batch numbered `b` has
      pre-sample id 2b-1 and post-sample id 2b, and batch ids count the
      (run, column) steps in order. */
  ghost predicate IdsPaired(xs: seq<Sample>, ctr: Counters, steps: nat)
  {
    forall i :: 0 <= i < |xs| ==>
      ctr.batchId < xs[i].m.batchId <= ctr.batchId + steps
      && xs[i].m.sampleId + (if xs[i].m.sampleType == "pre-affinity" then 1 else 0) == 2 * xs[i].m.batchId
  }

  /** Batch ids never decrease along the results. */
  ghost predicate BatchOrdered(xs: seq<Sample>)
  {
    forall i :: 0 < i < |xs| ==> xs[i - 1].m.batchId <= xs[i].m.batchId
  }

  /** The results of one step are all of the batch after the counter, with
      the sample ids paired to it. */
  lemma StepPaired(p: Pair, ctr: Counters)
    requires ctr.sampleId == 2 * ctr.batchId && StepIds(p, ctr)
    ensures IdsPaired(p.pre + p.post, ctr, 1)
    ensures forall i :: 0 <= i < |p.pre + p.post| ==> (p.pre + p.post)[i].m.batchId == ctr.batchId + 1
  {
    var xs := p.pre + p.post;
    assert forall i :: 0 <= i < |xs| ==> xs[i] == if i < |p.pre| then p.pre[i] else p.post[i - |p.pre|];
  }

  lemma IdsPairedAppend(xs: seq<Sample>, ys: seq<Sample>, ctr: Counters, ctr': Counters, steps: nat)
    requires ctr'.batchId == ctr.batchId + 1
    requires IdsPaired(xs, ctr, 1)
    requires IdsPaired(ys, ctr', steps)
    ensures IdsPaired(xs + ys, ctr, steps + 1)
  {
    forall i | |xs| <= i < |xs + ys| ensures (xs + ys)[i] == ys[i - |xs|] {
    }
  }

  lemma BatchOrderedAppend(xs: seq<Sample>, ys: seq<Sample>, b: nat)
    requires forall i :: 0 <= i < |xs| ==> xs[i].m.batchId == b
    requires forall i :: 0 <= i < |ys| ==> b < ys[i].m.batchId
    requires BatchOrdered(ys)
    ensures BatchOrdered(xs + ys)
  {
    forall i | 0 < i < |xs + ys| ensures (xs + ys)[i - 1].m.batchId <= (xs + ys)[i].m.batchId {
      if i > |xs| {
        assert (xs + ys)[i - 1] == ys[i - 1 - |xs|];
      }
      if i >= |xs| {
        assert (xs + ys)[i] == ys[i - |xs|];
      }
    }
  }

  lemma {:induction false} DatasetIds(step: Step, c: Config, run: nat, idx: nat, ctr: Counters, prevPost: Option<nat>)
    requires NumbersSamples(step)
    requires ctr.sampleId == 2 * ctr.batchId
    requires Dataset(step, c, run, idx, ctr, prevPost).Ok?
    ensures IdsPaired(Dataset(step, c, run, idx, ctr, prevPost).value, ctr, Remaining(c, run, idx))
    ensures BatchOrdered(Dataset(step, c, run, idx, ctr, prevPost).value)
    decreases c.runs - run, |c.columns| - idx
  {
    if run < c.runs {
      if idx >= |c.columns| {
        DatasetIds(step, c, run + 1, 0, ctr, prevPost);
      } else {
        var p := step(run, idx, ctr, prevPost).value;
        var ctr' := After(ctr, p);
        var prevPost' := Some(p.post[|p.post| - 1].m.testId);
        var rest := Dataset(step, c, run, idx + 1, ctr', prevPost').value;
        DatasetIds(step, c, run, idx + 1, ctr', prevPost');
        var xs := p.pre + p.post;
        StepPaired(p, ctr);
        IdsPairedAppend(xs, rest, ctr, ctr', Remaining(c, run, idx + 1));
        BatchOrderedAppend(xs, rest, ctr'.batchId);
      }
    }
  }

  /** `PairStep` (line 121 corrected) raises exactly at a missing quality
      entry and always has a post-sample result. */
  lemma PairStepsFailOnQuality(c: Config, scan: Scanner)
    requires Recovers(scan, c.retestDelay)
    ensures FailsOnQuality(StepOf(CurrentPre, c, scan), c)
  {
  }

  lemma PairStepsNumberTests(c: Config, scan: Scanner)
    requires Recovers(scan, c.retestDelay)
    ensures NumbersTests(StepOf(CurrentPre, c, scan))
  {
    var step := StepOf(CurrentPre, c, scan);
    forall run: nat, idx: nat, ctr: Counters, prevPost: Option<nat> | step(run, idx, ctr, prevPost).Ok?
      ensures Consecutive(step(run, idx, ctr, prevPost).value.pre + step(run, idx, ctr, prevPost).value.post, ctr.testId + 1)
    {
      PairStepTestIds(c, scan, run, idx, ctr, prevPost);
    }
  }

  lemma PairStepsNumberSamples(c: Config, scan: Scanner)
    requires Recovers(scan, c.retestDelay)
    ensures NumbersSamples(StepOf(CurrentPre, c, scan))
  {
    var step := StepOf(CurrentPre, c, scan);
    forall run: nat, idx: nat, ctr: Counters, prevPost: Option<nat> | step(run, idx, ctr, prevPost).Ok?
      ensures StepIds(step(run, idx, ctr, prevPost).value, ctr)
    {
      PairStepSamples(CurrentPre, c, scan, run, idx, ctr, prevPost);
    }
  }

  /** The corrected builder returns a dataset exactly when every column has
      a quality entry for every run; otherwise the first missing entry
      raises. */
  lemma BuildDefined(c: Config, scan: Scanner)
    requires Recovers(scan, c.retestDelay)
    ensures Dataset(StepOf(CurrentPre, c, scan), c, 0, 0, Start, None).Ok?
      <==> forall r, i :: 0 <= r < c.runs && 0 <= i < |c.columns| ==> QualityKnown(c, r, i)
  {
    PairStepsFailOnQuality(c, scan);
    DatasetDefined(StepOf(CurrentPre, c, scan), c, 0, 0, Start, None);
    QualityFromStart(c);
  }

  lemma QualityFromStart(c: Config)
    ensures QualityFrom(c, 0, 0) <==> forall r, i :: 0 <= r < c.runs && 0 <= i < |c.columns| ==> QualityKnown(c, r, i)
  {
  }

  /** Test ids run 1, 2, 3, … through the whole dataset of the corrected
      builder: every retest takes the next id and every sample starts after
      the last test of the previous one. */
  lemma BuildTestIds(c: Config, scan: Scanner)
    requires Recovers(scan, c.retestDelay)
    requires Dataset(StepOf(CurrentPre, c, scan), c, 0, 0, Start, None).Ok?
    ensures forall i :: 0 <= i < |Dataset(StepOf(CurrentPre, c, scan), c, 0, 0, Start, None).value| ==>
      Dataset(StepOf(CurrentPre, c, scan), c, 0, 0, Start, None).value[i].m.testId == i + 1
  {
    PairStepsNumberTests(c, scan);
    DatasetTestIds(StepOf(CurrentPre, c, scan), c, 0, 0, Start, None);
  }

  /** Batch ids of the corrected builder's dataset run from 1 to
      `number_of_runs * len(column_ids)` in order, and batch `b` has the
      pre-sample id 2b-1 and the post-sample id 2b. */
  lemma BuildIds(c: Config, scan: Scanner)
    requires Recovers(scan, c.retestDelay)
    requires Dataset(StepOf(CurrentPre, c, scan), c, 0, 0, Start, None).Ok?
    ensures IdsPaired(Dataset(StepOf(CurrentPre, c, scan), c, 0, 0, Start, None).value, Start, c.runs * |c.columns|)
    ensures BatchOrdered(Dataset(StepOf(CurrentPre, c, scan), c, 0, 0, Start, None).value)
  {
    PairStepsNumberSamples(c, scan);
    DatasetIds(StepOf(CurrentPre, c, scan), c, 0, 0, Start, None);
    RemainingAll(c);
  }

  lemma RemainingAll(c: Config)
    ensures Remaining(c, 0, 0) == c.runs * |c.columns|
  {
    RemainingSteps(c, 0, 0);
    if c.runs > 0 {
      assert (c.runs - 1) * |c.columns| + |c.columns| == c.runs * |c.columns|;
    }
  }

  /** As written, line 121 reads `cur_post_sample_result` before the first
      post-sample result exists, so the builder raises for any non-empty set
      of runs and columns. */
  lemma AsWrittenRaises(c: Config, scan: Scanner)
    requires Recovers(scan, c.retestDelay)
    requires c.runs > 0 && |c.columns| > 0
    ensures Dataset(StepOf(PreviousPost, c, scan), c, 0, 0, Start, None) == Err(UnboundLocalError("cur_post_sample_result"))
  {
    assert PairStep(PreviousPost, c, scan, 0, 0, Start, None).Err?;
  }

  /** `step` is the corrected `PairStep` at every position of the loops. */
  ghost predicate StepsAre(step: Step, c: Config, scan: Scanner)
    requires Recovers(scan, c.retestDelay)
  {
    forall run: nat, idx: nat, ctr: Counters, prevPost: Option<nat>
      {:trigger PairStep(CurrentPre, c, scan, run, idx, ctr, prevPost)}
      | run < c.runs && idx < |c.columns| ::
      step(run, idx, ctr, prevPost) == PairStep(CurrentPre, c, scan, run, idx, ctr, prevPost)
  }

  lemma StepOfIs(c: Config, scan: Scanner)
    requires Recovers(scan, c.retestDelay)
    ensures StepsAre(StepOf(CurrentPre, c, scan), c, scan)
  {
  }

  /** `build_sample_dataset`, with line 121 reading the pre-sample result;
      `step` names the corrected step it is proved against. */
  method BuildSampleDataset(c: Config, scan: Scanner, ghost step: Step) returns (r: Result<seq<Sample>>)
    requires Recovers(scan, c.retestDelay)
    requires StepsAre(step, c, scan)
    ensures r == Dataset(step, c, 0, 0, Start, None)
  {
    var results: seq<Sample> := [];
    var batchId, sampleId, testId := 0, 0, 0;
    ghost var lastPost: Option<nat> := None;
    if Dataset(step, c, 0, 0, Start, None).Ok? {
      assert [] + Dataset(step, c, 0, 0, Start, None).value == Dataset(step, c, 0, 0, Start, None).value;
    }
    for run := 0 to c.runs
      invariant Dataset(step, c, 0, 0, Start, None)
        == Prepend(results, Dataset(step, c, run, 0, Counters(batchId, sampleId, testId), lastPost))
    {
      for idx := 0 to |c.columns|
        invariant Dataset(step, c, 0, 0, Start, None)
          == Prepend(results, Dataset(step, c, run, idx, Counters(batchId, sampleId, testId), lastPost))
      {
        var ctr := Counters(batchId, sampleId, testId);
        var p := CollectPair(c, scan, run, idx, ctr, step);
        if p.Err? {
          return Err(p.error);
        }
        Advance(step, c, run, idx, ctr, lastPost, results, p.value);
        results := results + p.value.pre + p.value.post;
        batchId, sampleId, testId := batchId + 1, sampleId + 2, p.value.post[|p.value.post| - 1].m.testId;
        assert Counters(batchId, sampleId, testId) == After(ctr, p.value);
        lastPost := Some(testId);
      }
    }
    assert results + [] == results;
    return Ok(results);
  }

  /** One pass of the inner loop of `build_sample_dataset` (line 121
      corrected): the pre-sample with its retests, then the quality lookup,
      then the post-sample with its retests. */
  method CollectPair(c: Config, scan: Scanner, run: nat, idx: nat, ctr: Counters, ghost step: Step) returns (r: Result<Pair>)
    requires Recovers(scan, c.retestDelay)
    requires StepsAre(step, c, scan)
    requires run < c.runs && idx < |c.columns|
    ensures forall prevPost: Option<nat> :: r == step(run, idx, ctr, prevPost)
    ensures r.Ok? ==> |r.value.pre| >= 1 && |r.value.post| >= 1
  {
    var col := c.columns[idx];
    var batchId := ctr.batchId + 1;
    var instrumentId := InstrumentId(idx);
    var sampleId := ctr.sampleId + 1;
    var testId := ctr.testId + 1;
    var times := SampleTimes(c, run);
    var preM := Measurement(testId, instrumentId, sampleId, "pre-affinity", batchId, col, times.0, 1.0, false);
    assert preM == PreMeasurement(c, run, idx, ctr);
    var pre := CollectResultsBySample(scan, preM, c.retestDelay);
    testId := pre[|pre| - 1].m.testId;
    sampleId := sampleId + 1;
    testId := testId + 1;
    if col !in c.quality || run >= |c.quality[col]| {
      StepRaises(c, scan, step, run, idx, ctr);
      return Err(if col !in c.quality then KeyError(col) else IndexError);
    }
    var badRun := c.quality[col][run] == "bad";
    var targetTiter := if badRun then 4.5 else 5.0;
    var postM := Measurement(testId, instrumentId, sampleId, "post-affinity", batchId, col, times.1, targetTiter, false);
    assert postM == PostMeasurement(c, run, idx, ctr, pre[|pre| - 1].m.testId, PostTiter(badRun));
    var post := CollectResultsBySample(scan, postM, c.retestDelay);
    StepCollects(c, scan, step, run, idx, ctr, pre, post);
    return Ok(Pair(pre, post));
  }

  /** A step whose quality entry is missing raises the `KeyError` or
      `IndexError` of the lookup. */
  lemma StepRaises(c: Config, scan: Scanner, step: Step, run: nat, idx: nat, ctr: Counters)
    requires Recovers(scan, c.retestDelay)
    requires StepsAre(step, c, scan)
    requires run < c.runs && idx < |c.columns|
    requires !QualityKnown(c, run, idx)
    ensures forall prevPost: Option<nat> ::
      step(run, idx, ctr, prevPost) == Err(if c.columns[idx] !in c.quality then KeyError(c.columns[idx]) else IndexError)
  {
    forall prevPost: Option<nat>
      ensures step(run, idx, ctr, prevPost) == Err(if c.columns[idx] !in c.quality then KeyError(c.columns[idx]) else IndexError)
    {
      assert step(run, idx, ctr, prevPost) == PairStep(CurrentPre, c, scan, run, idx, ctr, prevPost);
    }
  }

  /** A step that collects the pre-sample and then the post-sample results
      succeeds with those results. */
  lemma StepCollects(c: Config, scan: Scanner, step: Step, run: nat, idx: nat, ctr: Counters, pre: seq<Sample>, post: seq<Sample>)
    requires Recovers(scan, c.retestDelay)
    requires StepsAre(step, c, scan)
    requires run < c.runs && idx < |c.columns|
    requires QualityKnown(c, run, idx)
    requires pre == Collect(scan, PreMeasurement(c, run, idx, ctr), c.retestDelay)
    requires post == Collect(scan, PostMeasurement(c, run, idx, ctr, pre[|pre| - 1].m.testId,
                                                   PostTiter(c.quality[c.columns[idx]][run] == "bad")), c.retestDelay)
    ensures forall prevPost: Option<nat> :: step(run, idx, ctr, prevPost) == Ok(Pair(pre, post))
  {
    forall prevPost: Option<nat> ensures step(run, idx, ctr, prevPost) == Ok(Pair(pre, post)) {
      assert step(run, idx, ctr, prevPost) == PairStep(CurrentPre, c, scan, run, idx, ctr, prevPost);
    }
  }

  /** A successful step moves its results from the rest of the build to the
      results built so far. */
  lemma Advance(step: Step, c: Config, run: nat, idx: nat, ctr: Counters, prevPost: Option<nat>,
                before: seq<Sample>, p: Pair)
    requires run < c.runs && idx < |c.columns|
    requires step(run, idx, ctr, prevPost) == Ok(p)
    requires |p.post| >= 1
    ensures Prepend(before, Dataset(step, c, run, idx, ctr, prevPost))
      == Prepend(before + p.pre + p.post, Dataset(step, c, run, idx + 1, After(ctr, p), Some(p.post[|p.post| - 1].m.testId)))
  {
    PrependTwice(before, p.pre + p.post, Dataset(step, c, run, idx + 1, After(ctr, p), Some(p.post[|p.post| - 1].m.testId)));
    assert before + p.pre + p.post == before + (p.pre + p.post);
  }

  /** The time key results are sorted and paced by: the record's date text
      parsed back, which keeps whole seconds only. */
  function DateKey(s: Sample): real
  {
    s.m.ts.Floor as real
  }

  /** The sleeps between successive puts: each gap between dates, divided by
      the rate factor. */
  function Delays(s: seq<Sample>, factor: real): (d: seq<real>)
    requires |s| < 2 || factor != 0.0
    ensures |d| == if |s| < 2 then 0 else |s| - 1
  {
    if |s| < 2 then []
    else Delays(s[..|s| - 1], factor) + [(DateKey(s[|s| - 1]) - DateKey(s[|s| - 2])) / factor]
  }

  /** What the `while streaming` loop leaves behind: the messages it put on
      the queue, the sleeps it requested, and the exception that ended it, if
      any. A raised exception leaves the results already put on the queue and
      no EOF. */
  datatype Streamed = Streamed(queue: seq<Msg<Sample>>, sleeps: seq<real>, raised: Option<Error>)

  /** The first index from `i` on whose successor has a later date (the last
      index when there is none). */
  function FirstRise(s: seq<Sample>, i: nat): (k: nat)
    requires i < |s|
    ensures i <= k < |s|
    ensures k + 1 < |s| ==> DateKey(s[k]) < DateKey(s[k + 1])
    decreases |s| - i
  {
    if i + 1 == |s| || DateKey(s[i]) < DateKey(s[i + 1]) then i else FirstRise(s, i + 1)
  }

  /** No date rises before the first rise. */
  lemma {:induction false} FirstRiseFlat(s: seq<Sample>, i: nat)
    requires i < |s|
    ensures forall j :: i <= j < FirstRise(s, i) ==> DateKey(s[j + 1]) <= DateKey(s[j])
    decreases |s| - i
  {
    if !(i + 1 == |s| || DateKey(s[i]) < DateKey(s[i + 1])) {
      FirstRiseFlat(s, i + 1);
    }
  }

  /** The `while streaming` loop of `generate_sample_result_events` over the
      sorted results. The first `next` raises `StopIteration` on no results;
      a zero rate factor raises `ZeroDivisionError` after the first put; a
      negative one turns the first gap between two dates into a negative
      sleep, which raises after the results up to that gap were put. */
  function Stream(sorted: seq<Sample>, factor: real): Streamed
  {
    if sorted == [] then Streamed([], [], Some(StopIteration))
    else if |sorted| >= 2 && factor == 0.0 then Streamed([Item(sorted[0])], [], Some(ZeroDivisionError))
    else if factor < 0.0 && DateKey(sorted[0]) < DateKey(sorted[|sorted| - 1]) then
      var k := FirstRise(sorted, 0);
      Streamed(Items(sorted[..k + 1]), Delays(sorted[..k + 1], factor), Some(SleepError))
    else Streamed(Items(sorted) + [Eof], Delays(sorted, factor), None)
  }

  /** `generate_sample_result_events`: the results sorted by date, then
      streamed. */
  function Events(results: seq<Sample>, factor: real): Streamed
  {
    Stream(Sorting.SortBy(results, DateKey), factor)
  }

  /** What the streaming loop relies on of the sorted results. */
  ghost predicate DatesAscending(s: seq<Sample>)
  {
    (forall i :: 0 <= i < |s| - 1 ==> DateKey(s[i]) <= DateKey(s[i + 1]))
    && (forall i :: 0 <= i < |s| ==> DateKey(s[i]) <= DateKey(s[|s| - 1]))
  }

  method StreamSorted(sorted: seq<Sample>, factor: real) returns (r: Streamed)
    requires DatesAscending(sorted)
    ensures r == Stream(sorted, factor)
  {
    if |sorted| == 0 {
      return Streamed([], [], Some(StopIteration));
    }
    var queue: seq<Msg<Sample>> := [];
    var sleeps: seq<real> := [];
    var i := 0;
    while true
      invariant 0 <= i < |sorted|
      invariant queue == Items(sorted[..i])
      invariant factor == 0.0 ==> i == 0
      invariant factor < 0.0 ==> DateKey(sorted[i]) == DateKey(sorted[0]) && FirstRise(sorted, 0) == FirstRise(sorted, i)
      invariant factor != 0.0 ==> sleeps == DelaysTo(sorted, i + 1, factor)
      invariant factor == 0.0 ==> sleeps == []
      decreases |sorted| - i
    {
      queue := queue + [Item(sorted[i])];
      assert queue == Items(sorted[..i + 1]) by {
        assert sorted[..i + 1] == sorted[..i] + [sorted[i]];
      }
      if i + 1 == |sorted| {
        break;
      }
      if factor == 0.0 {
        StreamDividesByZero(sorted);
        return Streamed(queue, sleeps, Some(ZeroDivisionError));
      }
      var delay := (DateKey(sorted[i + 1]) - DateKey(sorted[i])) / factor;
      assert DateKey(sorted[i]) <= DateKey(sorted[i + 1]) <= DateKey(sorted[|sorted| - 1]);
      QuotientSign(DateKey(sorted[i + 1]) - DateKey(sorted[i]), factor);
      if delay < 0.0 {
        DelaysToPrefix(sorted, i + 1, factor);
        StreamRises(sorted, i, factor);
        return Streamed(queue, sleeps, Some(SleepError));
      }
      sleeps := sleeps + [delay];
      i := i + 1;
    }
    assert sorted[..i + 1] == sorted;
    if factor != 0.0 {
      DelaysToPrefix(sorted, i + 1, factor);
    }
    StreamRunsOut(sorted, factor);
    queue := queue + [Eof];
    return Streamed(queue, sleeps, None);
  }

  /** With a zero factor and two results or more, the first result is put,
      then the first sleep divides by zero. */
  lemma StreamDividesByZero(sorted: seq<Sample>)
    requires |sorted| >= 2
    ensures Stream(sorted, 0.0) == Streamed(Items(sorted[..1]), [], Some(ZeroDivisionError))
  {
    assert sorted[..1] == [sorted[0]];
  }

  /** A negative sleep after result `i`, with the dates flat up to there,
      comes at the first rise: the results up to `i` are put, then the
      sleep raises. */
  lemma StreamRises(sorted: seq<Sample>, i: nat, factor: real)
    requires i + 1 < |sorted| && factor < 0.0
    requires DateKey(sorted[i]) < DateKey(sorted[i + 1]) <= DateKey(sorted[|sorted| - 1])
    requires DateKey(sorted[i]) == DateKey(sorted[0]) && FirstRise(sorted, 0) == FirstRise(sorted, i)
    ensures Stream(sorted, factor) == Streamed(Items(sorted[..i + 1]), Delays(sorted[..i + 1], factor), Some(SleepError))
  {
  }

  /** When no sleep raises, every result is put, then "EOF". */
  lemma StreamRunsOut(sorted: seq<Sample>, factor: real)
    requires sorted != [] && (factor == 0.0 ==> |sorted| == 1)
    requires factor < 0.0 ==> DateKey(sorted[|sorted| - 1]) == DateKey(sorted[0])
    ensures Stream(sorted, factor) == Streamed(Items(sorted) + [Eof], Delays(sorted, factor), None)
  {
  }

  lemma QuotientSign(x: real, f: real)
    requires x >= 0.0 && f != 0.0
    ensures x / f < 0.0 <==> x > 0.0 && f < 0.0
  {
    assert x / f * f == x;
    if f < 0.0 && x > 0.0 {
      assert x / f < 0.0;
    }
  }

  /** The sleeps after each of the first `n` results but the last. */
  function DelaysTo(s: seq<Sample>, n: nat, factor: real): seq<real>
    requires n <= |s| && (n < 2 || factor != 0.0)
  {
    if n < 2 then [] else DelaysTo(s, n - 1, factor) + [(DateKey(s[n - 1]) - DateKey(s[n - 2])) / factor]
  }

  lemma {:induction false} DelaysToPrefix(s: seq<Sample>, n: nat, factor: real)
    requires n <= |s| && (n < 2 || factor != 0.0)
    ensures DelaysTo(s, n, factor) == Delays(s[..n], factor)
  {
    if n >= 2 {
      DelaysToPrefix(s, n - 1, factor);
      var t := s[..n];
      assert t[..|t| - 1] == s[..n - 1];
    }
  }

  method GenerateSampleResultEvents(results: seq<Sample>, factor: real) returns (r: Streamed)
    ensures r == Events(results, factor)
    ensures r.raised == Some(StopIteration) <==> results == []
  {
    var sorted := Sorting.SortBy(results, DateKey);
    Sorting.SortBySorted(results, DateKey);
    assert DatesAscending(sorted);
    r := StreamSorted(sorted, factor);
  }

  function Sum(xs: seq<real>): real
  {
    if xs == [] then 0.0 else Sum(xs[..|xs| - 1]) + xs[|xs| - 1]
  }

  /** The sleeps between successive results add up to the span of their
      dates over the factor. */
  lemma {:induction false} DelaysSpan(s: seq<Sample>, factor: real)
    requires |s| >= 1 && factor != 0.0
    ensures Sum(Delays(s, factor)) == Quotient(DateKey(s[|s| - 1]) - DateKey(s[0]), factor)
  {
    if |s| >= 2 {
      var s' := s[..|s| - 1];
      var a, b, c := DateKey(s[0]), DateKey(s[|s| - 2]), DateKey(s[|s| - 1]);
      var init := Delays(s', factor);
      assert Delays(s, factor) == init + [Quotient(c - b, factor)];
      assert Sum(init) == Quotient(b - a, factor) by {
        DelaysSpan(s', factor);
        assert s'[0] == s[0] && s'[|s'| - 1] == s[|s| - 2];
      }
      assert Sum(init + [Quotient(c - b, factor)]) == Sum(init) + Quotient(c - b, factor) by {
        assert (init + [Quotient(c - b, factor)])[..|init|] == init;
      }
      QuotientsAdd(a, b, c, factor);
    }
  }

  function Quotient(x: real, f: real): real
    requires f != 0.0
  {
    x / f
  }

  lemma QuotientsAdd(a: real, b: real, c: real, f: real)
    requires f != 0.0
    ensures Quotient(b - a, f) + Quotient(c - b, f) == Quotient(c - a, f)
  {
  }

  /** Sleeps between sorted results are never negative when the factor is
      positive. */
  lemma {:induction false} DelaysNonNegative(s: seq<Sample>, factor: real)
    requires factor > 0.0
    requires Sorting.SortedBy(s, DateKey)
    ensures forall i :: 0 <= i < |Delays(s, factor)| ==> Delays(s, factor)[i] >= 0.0
  {
    if |s| >= 2 {
      var s' := s[..|s| - 1];
      assert Sorting.SortedBy(s', DateKey);
      DelaysNonNegative(s', factor);
      assert DateKey(s[|s| - 2]) <= DateKey(s[|s| - 1]);
    }
  }

  /** The queue holds every sorted result exactly once, in order, and then
      one EOF; the sleeps are never negative. */
  lemma StreamDeliverEach(sorted: seq<Sample>, factor: real)
    requires Sorting.SortedBy(sorted, DateKey)
    requires Stream(sorted, factor).raised.None?
    ensures var q, sleeps := Stream(sorted, factor).queue, Stream(sorted, factor).sleeps;
      |q| == |sorted| + 1 && q[|q| - 1] == Eof && BeforeEof(q) == sorted
      && (forall i :: 0 <= i < |sleeps| ==> sleeps[i] >= 0.0)
  {
    ConsumeRoundTrip(sorted, []);
    assert Items(sorted) + [Eof] + [] == Items(sorted) + [Eof];
    if factor > 0.0 {
      DelaysNonNegative(sorted, factor);
    } else if factor < 0.0 {
      DelaysFlat(sorted, factor);
    }
  }

  /** Every result is queued exactly once, in date order, then one EOF. */
  lemma EventsDeliverEach(results: seq<Sample>, factor: real)
    requires Events(results, factor).raised.None?
    ensures var q, sleeps := Events(results, factor).queue, Events(results, factor).sleeps;
      |q| == |results| + 1 && q[|q| - 1] == Eof
      && multiset(BeforeEof(q)) == multiset(results)
      && Sorting.SortedBy(BeforeEof(q), DateKey)
      && (forall i :: 0 <= i < |sleeps| ==> sleeps[i] >= 0.0)
  {
    var sorted := Sorting.SortBy(results, DateKey);
    Sorting.SortBySorted(results, DateKey);
    StreamDeliverEach(sorted, factor);
  }

  /** With a negative factor the stream only succeeds when every result has
      the same date, and then every sleep is zero. */
  lemma {:induction false} DelaysFlat(s: seq<Sample>, factor: real)
    requires factor < 0.0 && |s| >= 1
    requires Sorting.SortedBy(s, DateKey)
    requires DateKey(s[|s| - 1]) <= DateKey(s[0])
    ensures forall i :: 0 <= i < |Delays(s, factor)| ==> Delays(s, factor)[i] == 0.0
  {
    if |s| >= 2 {
      var s' := s[..|s| - 1];
      assert Sorting.SortedBy(s', DateKey);
      assert DateKey(s[0]) <= DateKey(s[|s| - 2]) <= DateKey(s[|s| - 1]);
      DelaysFlat(s', factor);
    }
  }

  /** Paced replay: the sleeps add up to the span of the dates, scaled down
      by the rate factor. */
  lemma StreamSpan(sorted: seq<Sample>, factor: real)
    requires Stream(sorted, factor).raised.None? && factor != 0.0
    ensures Sum(Stream(sorted, factor).sleeps) == (DateKey(sorted[|sorted| - 1]) - DateKey(sorted[0])) / factor
  {
    DelaysSpan(sorted, factor);
  }

  /** The upload path of a result: `raw/sample_{sample_id}_results_{date}.json`,
      `date` being the record's date text. */
  function SamplePath(s: Sample, date: real -> string): string
  {
    "raw/sample_" + (NatToString(s.m.sampleId) + ['_'] + ("results_" + date(s.m.ts) + ".json"))
  }

  /** Results of different samples are uploaded to different files. */
  lemma SamplePathsSeparateSamples(s1: Sample, s2: Sample, date: real -> string)
    requires s1.m.sampleId != s2.m.sampleId
    ensures SamplePath(s1, date) != SamplePath(s2, date)
  {
    var u := NatToString(s1.m.sampleId) + ['_'] + ("results_" + date(s1.m.ts) + ".json");
    var v := NatToString(s2.m.sampleId) + ['_'] + ("results_" + date(s2.m.ts) + ".json");
    if SamplePath(s1, date) == SamplePath(s2, date) {
      assert SamplePath(s1, date)[11..] == u;
      assert SamplePath(s2, date)[11..] == v;
      NumberBeforeSeparator(s1.m.sampleId, s2.m.sampleId, '_', "results_" + date(s1.m.ts) + ".json", "results_" + date(s2.m.ts) + ".json");
    }
  }

  /** Retests keep the sample id, so with no retest delay every attempt of
      a sample is uploaded to the same file as the first. */
  lemma RetestsShareAPath(scan: Scanner, m: Measurement, date: real -> string)
    requires Passes(scan, m, 0.0)
    ensures forall j :: 0 <= j < |Collect(scan, m, 0.0)| ==>
      SamplePath(Collect(scan, m, 0.0)[j], date) == SamplePath(Collect(scan, m, 0.0)[0], date)
  {
    var r := Collect(scan, m, 0.0);
    CollectRetests(scan, m, 0.0);
    forall j | 0 <= j < |r| ensures SamplePath(r[j], date) == SamplePath(r[0], date) {
      assert j as real * 0.0 == 0.0;
      assert r[j].m.sampleId == r[0].m.sampleId && r[j].m.ts == r[0].m.ts;
    }
  }

  /** What `send_sample_to_gcs` uploads: the file path and record of every
      queued result before the EOF. */
  function Uploads(q: seq<Msg<Sample>>, date: real -> string): (u: seq<(string, Sample)>)
    ensures |u| == |BeforeEof(q)|
    ensures forall i :: 0 <= i < |u| ==> u[i] == (SamplePath(BeforeEof(q)[i], date), BeforeEof(q)[i])
  {
    var xs := BeforeEof(q);
    seq(|xs|, i requires 0 <= i < |xs| => (SamplePath(xs[i], date), xs[i]))
  }

  /** Producer and uploader together: each result is uploaded once, in date
      order, under its own path. */
  lemma UploadsFollowDates(results: seq<Sample>, factor: real, date: real -> string)
    requires Events(results, factor).raised.None?
    ensures var u := Uploads(Events(results, factor).queue, date);
      var sorted := Sorting.SortBy(results, DateKey);
      |u| == |results| && forall i :: 0 <= i < |u| ==> u[i] == (SamplePath(sorted[i], date), sorted[i])
  {
    var sorted := Sorting.SortBy(results, DateKey);
    Sorting.SortBySorted(results, DateKey);
    StreamDeliverEach(sorted, factor);
  }

  /** With no later date up to `k`, nothing up to `k` is later than the first. */
  lemma {:induction false} NoRiseKeepsFirst(s: seq<Sample>, k: nat)
    requires k < |s|
    requires forall j :: 0 <= j < k ==> DateKey(s[j + 1]) <= DateKey(s[j])
    ensures DateKey(s[k]) <= DateKey(s[0])
  {
    if k > 0 {
      NoRiseKeepsFirst(s, k - 1);
    }
  }

  /** A raise ends the stream with a prefix of the sorted results on the
      queue and no EOF after it; once there is a result to put, the raise
      always leaves at least one of them off the queue. */
  lemma StreamRaisedKeepsPrefix(sorted: seq<Sample>, factor: real)
    requires Stream(sorted, factor).raised.Some?
    ensures var r := Stream(sorted, factor);
      |r.queue| <= |sorted| && r.queue == Items(sorted[..|r.queue|]) && !HasEof(r.queue)
      && (sorted != [] ==> 0 < |r.queue| < |sorted|)
  {
    var r := Stream(sorted, factor);
    if sorted != [] && !(|sorted| >= 2 && factor == 0.0) {
      var k := FirstRise(sorted, 0);
      if k + 1 == |sorted| {
        FirstRiseFlat(sorted, 0);
        NoRiseKeepsFirst(sorted, k);
        assert false;
      }
    } else if sorted != [] {
      assert sorted[..1] == [sorted[0]];
    }
    ConsumeWithoutEof(sorted[..|r.queue|]);
  }

  /** Producer and uploader after a raise: the uploader has the earliest
      results, each under its own path, and waits for an EOF that never
      comes. */
  lemma EventsRaisedUploadsEarliest(results: seq<Sample>, factor: real, date: real -> string)
    requires Events(results, factor).raised.Some?
    ensures var r := Events(results, factor);
      var sorted := Sorting.SortBy(results, DateKey);
      var u := Uploads(r.queue, date);
      !HasEof(r.queue) && (results != [] ==> 0 < |u| < |results|)
      && forall i :: 0 <= i < |u| ==> u[i] == (SamplePath(sorted[i], date), sorted[i])
  {
    var sorted := Sorting.SortBy(results, DateKey);
    var r := Events(results, factor);
    StreamRaisedKeepsPrefix(sorted, factor);
    ConsumeWithoutEof(sorted[..|r.queue|]);
  }

  /** A zero rate factor with two results or more: the earliest result is
      put, then computing the first sleep divides by zero. */
  lemma ZeroFactorQueuesEarliest(results: seq<Sample>)
    requires |results| >= 2
    ensures var r := Events(results, 0.0);
      r.raised == Some(ZeroDivisionError) && r.sleeps == [] && |r.queue| == 1
      && r.queue[0].Item? && r.queue[0].value in results
      && forall t :: t in results ==> DateKey(r.queue[0].value) <= DateKey(t)
  {
    var sorted := Sorting.SortBy(results, DateKey);
    Sorting.SortBySorted(results, DateKey);
    assert sorted[0] in multiset(results);
    forall t | t in results ensures DateKey(sorted[0]) <= DateKey(t) {
      assert t in multiset(sorted);
      var j :| 0 <= j < |sorted| && sorted[j] == t;
    }
  }
}
