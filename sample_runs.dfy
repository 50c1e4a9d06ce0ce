/** The sample-result producer of the `python` package (`generate_samples`):
    for every run and every column it takes a "pre-affinity" sample before
    the run and a "post-affinity" sample after it, each retested until the
    instrument scan does not fail, and files every result, retests included,
    in one list per column.

    As written, the loops call `generate_sample_result`, a method the
    generator's class does not define, so every step raises
    `AttributeError` (`SamplesAsWritten`). The rest of this module models
    the evidently intended call to `generate_result`. Its `scan_result` text
    is the oracle `gen`, and a result record is the request it answers and
    that text. */
module SampleRuns {
  import opened Common
  import SampleResults

  /** The arguments of one call of the instrument's result generator. */
  datatype Request = Request(
    instrumentId: string,
    sampleId: nat,
    sampleType: string,
    batchId: nat,
    ts: real,
    titer: real,
    badRun: bool)

  /** One result record: the request and the scan result it got. */
  datatype Record = Record(req: Request, scanResult: string)

  /** The instrument: the `scan_result` it reports for a request. */
  type Generator = Request -> string

  predicate Failed(r: Record)
  {
    r.scanResult == "fail"
  }

  /** The request made after `q` failed: the next sample id, `delay`
      seconds later. */
  function NextAttempt(q: Request, delay: real): Request
  {
    q.(sampleId := q.sampleId + 1, ts := q.ts + delay)
  }

  /** The `k`-th retest of `q` (the 0-th is `q` itself). */
  function Attempt(q: Request, delay: real, k: nat): Request
  {
    if k == 0 then q else NextAttempt(Attempt(q, delay, k - 1), delay)
  }

  /** Some retest of `q` passes the scan. */
  ghost predicate Passes(gen: Generator, q: Request, delay: real)
  {
    exists k: nat :: gen(Attempt(q, delay, k)) != "fail"
  }

  /** Every retest loop ends: from any request some retest passes. */
  ghost predicate Recovers(gen: Generator, delay: real)
  {
    forall q: Request :: Passes(gen, q, delay)
  }

  /** A retest that passes (not necessarily the first); it bounds the loop. */
  ghost function SomePass(gen: Generator, q: Request, delay: real): (k: nat)
    requires Passes(gen, q, delay)
    ensures gen(Attempt(q, delay, k)) != "fail"
  {
    var k: nat :| gen(Attempt(q, delay, k)) != "fail";
    k
  }

  lemma {:induction false} NthAttempt(q: Request, delay: real, k: nat)
    ensures Attempt(q, delay, k) == q.(sampleId := q.sampleId + k, ts := q.ts + k as real * delay)
  {
    if k > 0 {
      NthAttempt(q, delay, k - 1);
      assert (k - 1) as real * delay + delay == k as real * delay;
    }
  }

  /** The records of the retests of `q` from the `i`-th on, up to the first
      whose scan does not fail. */
  function AttemptsFrom(gen: Generator, q: Request, delay: real, i: nat): (r: seq<Record>)
    requires Passes(gen, q, delay)
    requires i <= SomePass(gen, q, delay)
    ensures |r| >= 1
    ensures forall j :: 0 <= j < |r| ==> r[j].req == Attempt(q, delay, i + j) && r[j].scanResult == gen(r[j].req)
    ensures forall j :: 0 <= j < |r| - 1 ==> Failed(r[j])
    ensures !Failed(r[|r| - 1])
    decreases SomePass(gen, q, delay) - i
  {
    var t := Attempt(q, delay, i);
    var rec := Record(t, gen(t));
    if !Failed(rec) then [rec]
    else
      assert i < SomePass(gen, q, delay);
      [rec] + AttemptsFrom(gen, q, delay, i + 1)
  }

  /** One sample: the first request and its retests, up to the first whose
      scan does not fail. */
  function Attempts(gen: Generator, q: Request, delay: real): (r: seq<Record>)
    requires Passes(gen, q, delay)
    ensures |r| >= 1
    ensures forall j :: 0 <= j < |r| - 1 ==> Failed(r[j])
    ensures !Failed(r[|r| - 1])
  {
    AttemptsFrom(gen, q, delay, 0)
  }

  /** The `j`-th record of a sample has sample id `sample_id + j` and was
      requested `j` retest delays after the first; nothing else changes. */
  lemma AttemptsSpaced(gen: Generator, q: Request, delay: real)
    requires Passes(gen, q, delay)
    ensures forall j :: 0 <= j < |Attempts(gen, q, delay)| ==>
      Attempts(gen, q, delay)[j].req == q.(sampleId := q.sampleId + j, ts := q.ts + j as real * delay)
      && Attempts(gen, q, delay)[j].scanResult == gen(Attempts(gen, q, delay)[j].req)
  {
    var r := Attempts(gen, q, delay);
    forall j | 0 <= j < |r| ensures r[j].req == q.(sampleId := q.sampleId + j, ts := q.ts + j as real * delay) {
      NthAttempt(q, delay, j);
    }
  }

  /** One sample of the loop body of `generate_samples`: the first request,
      then the `while test_failed` loop that bumps the sample id and the
      retest time before every retest. */
  method RetestUntilPass(gen: Generator, q: Request, delay: real) returns (records: seq<Record>)
    requires Passes(gen, q, delay)
    ensures records == Attempts(gen, q, delay)
  {
    ghost var bound := SomePass(gen, q, delay);
    var sampleId := q.sampleId;
    var first := Record(q, gen(q));
    records := [first];
    var retestTs := q.ts;
    var testFailed := first.scanResult == "fail";
    ghost var i: nat := 0;
    while testFailed
      invariant i <= bound
      invariant |records| == i + 1
      invariant forall j {:trigger records[j]} :: 0 <= j < |records| ==>
        records[j].req == Attempt(q, delay, j) && records[j].scanResult == gen(records[j].req)
      invariant forall j :: 0 <= j < i ==> Failed(records[j])
      invariant q.(sampleId := sampleId, ts := retestTs) == Attempt(q, delay, i)
      invariant testFailed == Failed(records[i])
      decreases bound - i
    {
      assert i != bound;
      sampleId := sampleId + 1;
      retestTs := retestTs + delay;
      var retest := q.(sampleId := sampleId, ts := retestTs);
      assert retest == Attempt(q, delay, i + 1);
      var result := Record(retest, gen(retest));
      records := records + [result];
      testFailed := result.scanResult == "fail";
      i := i + 1;
    }
    AttemptsCharacterized(gen, q, delay, 0, records);
  }

  /** A non-empty run of records of successive retests in which only the
      last scan passes is exactly what `AttemptsFrom` gives. */
  lemma AttemptsCharacterized(gen: Generator, q: Request, delay: real, i: nat, records: seq<Record>)
    requires Passes(gen, q, delay)
    requires i <= SomePass(gen, q, delay)
    requires |records| >= 1
    requires forall j :: 0 <= j < |records| ==>
      records[j].req == Attempt(q, delay, i + j) && records[j].scanResult == gen(records[j].req)
    requires forall j :: 0 <= j < |records| - 1 ==> Failed(records[j])
    requires !Failed(records[|records| - 1])
    ensures records == AttemptsFrom(gen, q, delay, i)
  {
    var a := AttemptsFrom(gen, q, delay, i);
    forall j | 0 <= j < |a| && j < |records| ensures a[j] == records[j] {
      assert a[j].req == records[j].req;
    }
    assert |a| == |records|;
  }

  // ---------------------------------------------------------------------
  // The runs

  /** The running `batch_id` and `sample_id` counters. */
  datatype Counters = Counters(batchId: nat, sampleId: nat)

  /** The instrument of the column at position `idx` (numbered from 0). */
  function InstrumentId(idx: nat): string
  {
    "solovpe_" + NatToString(idx)
  }

  lemma InstrumentIdsDistinct(i: nat, j: nat)
    requires i != j
    ensures InstrumentId(i) != InstrumentId(j)
  {
    if InstrumentId(i) == InstrumentId(j) {
      assert InstrumentId(i)[8..] == NatToString(i);
      assert InstrumentId(j)[8..] == NatToString(j);
      NatToStringInjective(i, j);
    }
  }

  /** `batch_quality[col][run] == "bad"`. */
  ghost function BadRun(c: SampleResults.Config, run: nat, idx: nat): bool
    requires idx < |c.columns| && SampleResults.QualityKnown(c, run, idx)
  {
    c.quality[c.columns[idx]][run] == "bad"
  }

  /** The first pre-sample request of a (run, column) step. */
  ghost function PreRequest(c: SampleResults.Config, run: nat, idx: nat, ctr: Counters): Request
    requires idx < |c.columns| && SampleResults.QualityKnown(c, run, idx)
  {
    Request(InstrumentId(idx), ctr.sampleId + 1, "pre-affinity", ctr.batchId + 1,
            SampleResults.SampleTimes(c, run).0, 1.0, BadRun(c, run, idx))
  }

  /** The first post-sample request of a (run, column) step, made with the
      sample id after the last pre-sample retest. */
  ghost function PostRequest(c: SampleResults.Config, run: nat, idx: nat, ctr: Counters, lastPre: nat): Request
    requires idx < |c.columns| && SampleResults.QualityKnown(c, run, idx)
  {
    Request(InstrumentId(idx), lastPre + 1, "post-affinity", ctr.batchId + 1,
            SampleResults.SampleTimes(c, run).1, 5.0, BadRun(c, run, idx))
  }

  /** The records of one (run, column) step. */
  datatype Visit = Visit(pre: seq<Record>, post: seq<Record>)

  /** One iteration of the inner loop of `generate_samples`, with the call
      corrected to `generate_result`: the lookup of `batch_quality[col][run]`
      raises when the column or the run is missing; otherwise the pre-sample
      and the post-sample records. */
  ghost function VisitColumn(c: SampleResults.Config, gen: Generator, run: nat, idx: nat, ctr: Counters): (r: Result<Visit>)
    requires idx < |c.columns| && Recovers(gen, c.retestDelay)
    ensures r.Ok? <==> SampleResults.QualityKnown(c, run, idx)
    ensures !SampleResults.QualityKnown(c, run, idx) ==>
      r == Err(if c.columns[idx] in c.quality then IndexError else KeyError(c.columns[idx]))
    ensures r.Ok? ==> |r.value.pre| >= 1 && |r.value.post| >= 1
  {
    var col := c.columns[idx];
    if col !in c.quality then Err(KeyError(col))
    else if run >= |c.quality[col]| then Err(IndexError)
    else
      var q := PreRequest(c, run, idx, ctr);
      assert Passes(gen, q, c.retestDelay);
      var pre := Attempts(gen, q, c.retestDelay);
      var q' := PostRequest(c, run, idx, ctr, pre[|pre| - 1].req.sampleId);
      assert Passes(gen, q', c.retestDelay);
      Ok(Visit(pre, Attempts(gen, q', c.retestDelay)))
  }

  /** The sample ids of `recs` run on without a gap from `first`. */
  ghost predicate ConsecutiveFrom(recs: seq<Record>, first: nat)
  {
    forall j :: 0 <= j < |recs| ==> recs[j].req.sampleId == first + j
  }

  /** A step's records are numbered on from the sample counter, the
      pre-sample retests first and the post-sample retests after them. */
  lemma VisitIds(c: SampleResults.Config, gen: Generator, run: nat, idx: nat, ctr: Counters)
    requires idx < |c.columns| && Recovers(gen, c.retestDelay)
    requires VisitColumn(c, gen, run, idx, ctr).Ok?
    ensures var v := VisitColumn(c, gen, run, idx, ctr).value;
      ConsecutiveFrom(v.pre + v.post, ctr.sampleId + 1)
  {
    var v := VisitColumn(c, gen, run, idx, ctr).value;
    var q := PreRequest(c, run, idx, ctr);
    assert Passes(gen, q, c.retestDelay);
    AttemptsSpaced(gen, q, c.retestDelay);
    assert v.pre == Attempts(gen, q, c.retestDelay);
    var q' := PostRequest(c, run, idx, ctr, v.pre[|v.pre| - 1].req.sampleId);
    assert Passes(gen, q', c.retestDelay);
    AttemptsSpaced(gen, q', c.retestDelay);
    assert v.post == Attempts(gen, q', c.retestDelay);
  }

  /** The first post-sample request of a step is `batch_duration_sec + 2 *
      sampling_ts_buffer_sec` after its first pre-sample request, whatever
      the retests in between. */
  lemma RequestTimes(c: SampleResults.Config, run: nat, idx: nat, ctr: Counters, lastPre: nat)
    requires idx < |c.columns| && SampleResults.QualityKnown(c, run, idx)
    ensures PostRequest(c, run, idx, ctr, lastPre).ts - PreRequest(c, run, idx, ctr).ts == c.duration + 2.0 * c.buffer
    ensures run == 0 ==> PreRequest(c, run, idx, ctr).ts == c.execTime - c.buffer
  {
  }

  /** Every record of a step, retests included, is of the step's batch and
      instrument and carries `bad_run`; the pre-sample records ask for titer
      1.0 and the post-sample records for titer 5.0, whatever the run's
      quality. */
  lemma VisitRequests(c: SampleResults.Config, gen: Generator, run: nat, idx: nat, ctr: Counters)
    requires idx < |c.columns| && Recovers(gen, c.retestDelay)
    requires VisitColumn(c, gen, run, idx, ctr).Ok?
    ensures var v := VisitColumn(c, gen, run, idx, ctr).value;
      && (forall j :: 0 <= j < |v.pre| ==>
            v.pre[j].req.sampleType == "pre-affinity" && v.pre[j].req.titer == 1.0
            && v.pre[j].req.batchId == ctr.batchId + 1 && v.pre[j].req.instrumentId == InstrumentId(idx)
            && v.pre[j].req.badRun == (c.quality[c.columns[idx]][run] == "bad"))
      && (forall j :: 0 <= j < |v.post| ==>
            v.post[j].req.sampleType == "post-affinity" && v.post[j].req.titer == 5.0
            && v.post[j].req.batchId == ctr.batchId + 1 && v.post[j].req.instrumentId == InstrumentId(idx)
            && v.post[j].req.badRun == (c.quality[c.columns[idx]][run] == "bad"))
  {
    var v := VisitColumn(c, gen, run, idx, ctr).value;
    var q := PreRequest(c, run, idx, ctr);
    assert Passes(gen, q, c.retestDelay);
    AttemptsSpaced(gen, q, c.retestDelay);
    assert v.pre == Attempts(gen, q, c.retestDelay);
    var q' := PostRequest(c, run, idx, ctr, v.pre[|v.pre| - 1].req.sampleId);
    assert Passes(gen, q', c.retestDelay);
    AttemptsSpaced(gen, q', c.retestDelay);
    assert v.post == Attempts(gen, q', c.retestDelay);
  }

  // ---------------------------------------------------------------------
  // The loops, over any step

  /** One (run, column) step as a value: its records, or the exception it
      raises, given the position and the counters before it. */
  type Step = (nat, nat, Counters) -> Result<Visit>

  ghost function StepOf(c: SampleResults.Config, gen: Generator): Step
    requires Recovers(gen, c.retestDelay)
  {
    (run: nat, idx: nat, ctr: Counters) =>
      if idx < |c.columns| then VisitColumn(c, gen, run, idx, ctr) else Err(IndexError)
  }

  /** `step` is `VisitColumn` at every position of the loops. */
  ghost predicate StepsAre(step: Step, c: SampleResults.Config, gen: Generator)
    requires Recovers(gen, c.retestDelay)
  {
    forall run: nat, idx: nat, ctr: Counters {:trigger VisitColumn(c, gen, run, idx, ctr)} | idx < |c.columns| ::
      step(run, idx, ctr) == VisitColumn(c, gen, run, idx, ctr)
  }

  lemma StepOfIs(c: SampleResults.Config, gen: Generator)
    requires Recovers(gen, c.retestDelay)
    ensures StepsAre(StepOf(c, gen), c, gen)
  {
  }

  /** The counters after a step: one more batch, and the sample id of the
      last post-sample retest. */
  function After(ctr: Counters, v: Visit): Counters
  {
    Counters(ctr.batchId + 1, if v.post == [] then ctr.sampleId else v.post[|v.post| - 1].req.sampleId)
  }

  /** Appending a step's records to `sample_results[col]`: a new list on
      run 0, the column's list on later runs (a `KeyError` if it has none). */
  function Store(acc: map<string, seq<Record>>, run: nat, col: string, recs: seq<Record>): Result<map<string, seq<Record>>>
  {
    if run == 0 then Ok(acc[col := recs])
    else if col !in acc then Err(KeyError(col))
    else Ok(acc[col := acc[col] + recs])
  }

  /** The loops of `generate_samples` from step (`run`, `idx`) on, with the
      counters and the lists built so far. */
  function Visits(step: Step, c: SampleResults.Config, run: nat, idx: nat, ctr: Counters,
                  acc: map<string, seq<Record>>): Result<map<string, seq<Record>>>
    requires idx <= |c.columns|
    decreases c.runs - run, |c.columns| - idx
  {
    if run >= c.runs then Ok(acc)
    else if idx == |c.columns| then Visits(step, c, run + 1, 0, ctr, acc)
    else
      match step(run, idx, ctr)
      case Err(e) => Err(e)
      case Ok(v) =>
        match Store(acc, run, c.columns[idx], v.pre + v.post)
        case Err(e) => Err(e)
        case Ok(acc') => Visits(step, c, run, idx + 1, After(ctr, v), acc')
  }

  const Start := Counters(0, 0)

  /** What `generate_samples` returns, or the exception it raises, with the
      call corrected to `generate_result`. */
  ghost function Samples(c: SampleResults.Config, gen: Generator): Result<map<string, seq<Record>>>
    requires Recovers(gen, c.retestDelay)
  {
    Visits(StepOf(c, gen), c, 0, 0, Start, map[])
  }

  // ---------------------------------------------------------------------
  // The call as written

  /** The methods `SampleResultGenerator` defines in
      python/src/sample_results/sample_result_generator.py. */
  const GeneratorMethods: set<string> := {"__init__", "_read_json", "_calculate_trend_params", "generate_result"}

  /** The method the loops call on the generator at lines 52, 67, 81 and 96. */
  const CalledAsWritten := "generate_sample_result"

  /** The method that answers a request, whose keyword parameters match the
      call. */
  const CalledIntended := "generate_result"

  /** One step that calls `name` on the generator. Python looks the method
      up before it evaluates the arguments, so a missing method raises
      `AttributeError` before the `batch_quality` lookup of line 59. */
  ghost function CallingStep(name: string, c: SampleResults.Config, gen: Generator): Step
    requires Recovers(gen, c.retestDelay)
  {
    (run: nat, idx: nat, ctr: Counters) =>
      if name !in GeneratorMethods then Err(AttributeError(name)) else StepOf(c, gen)(run, idx, ctr)
  }

  /** `generate_samples` as written. */
  ghost function SamplesAsWritten(c: SampleResults.Config, gen: Generator): Result<map<string, seq<Record>>>
    requires Recovers(gen, c.retestDelay)
  {
    Visits(CallingStep(CalledAsWritten, c, gen), c, 0, 0, Start, map[])
  }

  /** As written, `generate_samples` raises `AttributeError` at its first
      step, whatever `batch_quality` holds; it returns (an empty dict) only
      when there is no run or no column. */
  lemma AsWrittenAttributeError(c: SampleResults.Config, gen: Generator)
    requires Recovers(gen, c.retestDelay)
    ensures SamplesAsWritten(c, gen)
            == if c.runs > 0 && c.columns != [] then Err(AttributeError("generate_sample_result")) else Ok(map[])
  {
    if c.columns == [] {
      NoColumnsVisits(CallingStep(CalledAsWritten, c, gen), c, 0, Start);
    }
  }

  /** With no column, the loops only count the runs. */
  lemma {:induction false} NoColumnsVisits(step: Step, c: SampleResults.Config, run: nat, ctr: Counters)
    requires c.columns == []
    ensures Visits(step, c, run, 0, ctr, map[]) == Ok(map[])
    decreases c.runs - run
  {
    if run < c.runs {
      NoColumnsVisits(step, c, run + 1, ctr);
    }
  }

  /** With the call corrected to `generate_result`, the loops are `Samples`. */
  lemma IntendedCallSamples(c: SampleResults.Config, gen: Generator)
    requires Recovers(gen, c.retestDelay)
    ensures Visits(CallingStep(CalledIntended, c, gen), c, 0, 0, Start, map[]) == Samples(c, gen)
  {
    VisitsSameSteps(CallingStep(CalledIntended, c, gen), StepOf(c, gen), c, 0, 0, Start, map[]);
  }

  /** Steps that agree at every position give the same loops. */
  lemma {:induction false} VisitsSameSteps(s1: Step, s2: Step, c: SampleResults.Config, run: nat, idx: nat,
                                           ctr: Counters, acc: map<string, seq<Record>>)
    requires idx <= |c.columns|
    requires forall r: nat, i: nat, k: Counters :: i < |c.columns| ==> s1(r, i, k) == s2(r, i, k)
    ensures Visits(s1, c, run, idx, ctr, acc) == Visits(s2, c, run, idx, ctr, acc)
    decreases c.runs - run, |c.columns| - idx
  {
    if run >= c.runs {
    } else if idx == |c.columns| {
      VisitsSameSteps(s1, s2, c, run + 1, 0, ctr, acc);
    } else {
      match s1(run, idx, ctr)
      case Err(_) =>
      case Ok(v) =>
        match Store(acc, run, c.columns[idx], v.pre + v.post)
        case Err(_) =>
        case Ok(acc') => VisitsSameSteps(s1, s2, c, run, idx + 1, After(ctr, v), acc');
    }
  }

  /** Any step that is `VisitColumn` everywhere gives `Samples`. */
  lemma SamplesAre(c: SampleResults.Config, gen: Generator, step: Step)
    requires Recovers(gen, c.retestDelay) && StepsAre(step, c, gen)
    ensures Visits(step, c, 0, 0, Start, map[]) == Samples(c, gen)
  {
    forall r: nat, i: nat, k: Counters | i < |c.columns| ensures step(r, i, k) == StepOf(c, gen)(r, i, k) {
      assert step(r, i, k) == VisitColumn(c, gen, r, i, k);
    }
    VisitsSameSteps(step, StepOf(c, gen), c, 0, 0, Start, map[]);
  }

  // ---------------------------------------------------------------------
  // What the loops build

  /** A step raises exactly when its quality entry is missing. */
  ghost predicate FailsOnQuality(step: Step, c: SampleResults.Config)
  {
    forall run: nat, idx: nat, ctr: Counters | idx < |c.columns| ::
      step(run, idx, ctr).Ok? <==> SampleResults.QualityKnown(c, run, idx)
  }

  /** Every quality entry from step (`run`, `idx`) on exists. */
  ghost predicate KnownFrom(c: SampleResults.Config, run: nat, idx: nat)
  {
    forall r: nat, j: nat | run <= r < c.runs && j < |c.columns| && (r == run ==> idx <= j) ::
      SampleResults.QualityKnown(c, r, j)
  }

  /** The lists the loops have opened by step (`run`, `idx`). */
  ghost predicate Opened(c: SampleResults.Config, run: nat, idx: nat, acc: map<string, seq<Record>>)
  {
    forall j :: 0 <= j < |c.columns| && (run > 0 || j < idx) ==> c.columns[j] in acc
  }

  function Columns(c: SampleResults.Config): set<string>
  {
    set col | col in c.columns
  }

  /** The loops end normally exactly when every quality entry they look up
      exists, and then every column has its list. */
  lemma {:induction false} VisitsDefined(step: Step, c: SampleResults.Config, run: nat, idx: nat, ctr: Counters,
                                         acc: map<string, seq<Record>>)
    requires idx <= |c.columns| && FailsOnQuality(step, c) && Opened(c, run, idx, acc)
    ensures Visits(step, c, run, idx, ctr, acc).Ok? <==> KnownFrom(c, run, idx)
    ensures Visits(step, c, run, idx, ctr, acc).Ok? ==>
      Visits(step, c, run, idx, ctr, acc).value.Keys == acc.Keys + (if run < c.runs then Columns(c) else {})
    decreases c.runs - run, |c.columns| - idx
  {
    if run >= c.runs {
    } else if idx == |c.columns| {
      VisitsDefined(step, c, run + 1, 0, ctr, acc);
      assert Columns(c) <= acc.Keys by {
        forall col | col in Columns(c) ensures col in acc {
          var j :| 0 <= j < |c.columns| && c.columns[j] == col;
        }
      }
      assert KnownFrom(c, run, idx) <==> KnownFrom(c, run + 1, 0);
    } else {
      var col := c.columns[idx];
      match step(run, idx, ctr)
      case Err(_) =>
        assert !SampleResults.QualityKnown(c, run, idx);
      case Ok(v) =>
        assert SampleResults.QualityKnown(c, run, idx);
        assert run > 0 ==> col in acc;
        var acc' := acc[col := if run == 0 then v.pre + v.post else acc[col] + (v.pre + v.post)];
        assert Store(acc, run, col, v.pre + v.post) == Ok(acc');
        VisitsDefined(step, c, run, idx + 1, After(ctr, v), acc');
        assert KnownFrom(c, run, idx) <==> KnownFrom(c, run, idx + 1);
    }
  }

  /** Each step's records are numbered on from the sample counter. */
  ghost predicate NumbersSamples(step: Step)
  {
    forall run: nat, idx: nat, ctr: Counters | step(run, idx, ctr).Ok? ::
      |step(run, idx, ctr).value.post| >= 1
      && ConsecutiveFrom(step(run, idx, ctr).value.pre + step(run, idx, ctr).value.post, ctr.sampleId + 1)
  }

  /** The sample ids of `l` increase. */
  ghost predicate Increasing(l: seq<Record>)
  {
    forall i, j :: 0 <= i < j < |l| ==> l[i].req.sampleId < l[j].req.sampleId
  }

  /** No sample id is in both `l1` and `l2`. */
  ghost predicate Disjoint(l1: seq<Record>, l2: seq<Record>)
  {
    forall i, j :: 0 <= i < |l1| && 0 <= j < |l2| ==> l1[i].req.sampleId != l2[j].req.sampleId
  }

  /** No sample id of `l` is above `top`. */
  ghost predicate AllBelow(l: seq<Record>, top: nat)
  {
    forall i :: 0 <= i < |l| ==> l[i].req.sampleId <= top
  }

  /** Within each list the sample ids increase, and no sample id is in two
      lists. */
  ghost predicate Numbered(m: map<string, seq<Record>>)
  {
    (forall k :: k in m ==> Increasing(m[k]))
    && (forall k1, k2 :: k1 in m && k2 in m && k1 != k2 ==> Disjoint(m[k1], m[k2]))
  }

  /** No sample id in the lists is above `top`. */
  ghost predicate Below(m: map<string, seq<Record>>, top: nat)
  {
    forall k :: k in m ==> AllBelow(m[k], top)
  }

  lemma AppendIncreasing(base: seq<Record>, recs: seq<Record>, top: nat)
    requires Increasing(base) && AllBelow(base, top) && ConsecutiveFrom(recs, top + 1)
    ensures Increasing(base + recs) && AllBelow(base + recs, top + |recs|)
  {
    var l := base + recs;
    assert forall i :: 0 <= i < |base| ==> l[i] == base[i];
    assert forall i :: |base| <= i < |l| ==> l[i] == recs[i - |base|];
  }

  lemma AppendDisjoint(base: seq<Record>, recs: seq<Record>, other: seq<Record>, top: nat)
    requires Disjoint(base, other) && AllBelow(other, top) && ConsecutiveFrom(recs, top + 1)
    ensures Disjoint(base + recs, other) && Disjoint(other, base + recs)
  {
    var l := base + recs;
    assert forall i :: 0 <= i < |base| ==> l[i] == base[i];
    assert forall i :: |base| <= i < |l| ==> l[i] == recs[i - |base|];
  }

  /** Filing records numbered on from `top` keeps the lists numbered. */
  lemma StoreNumbered(acc: map<string, seq<Record>>, run: nat, col: string, recs: seq<Record>, top: nat)
    requires Numbered(acc) && Below(acc, top) && ConsecutiveFrom(recs, top + 1)
    requires Store(acc, run, col, recs).Ok?
    ensures Numbered(Store(acc, run, col, recs).value) && Below(Store(acc, run, col, recs).value, top + |recs|)
  {
    var base: seq<Record> := if run == 0 then [] else acc[col];
    var m: map<string, seq<Record>> := acc[col := base + recs];
    assert run == 0 ==> base + recs == recs;
    assert Store(acc, run, col, recs).value == m;
    AppendIncreasing(base, recs, top);
    forall k | k in m ensures Increasing(m[k]) && AllBelow(m[k], top + |recs|) {
    }
    forall k1, k2 | k1 in m && k2 in m && k1 != k2 ensures Disjoint(m[k1], m[k2]) {
      if k1 == col {
        AppendDisjoint(base, recs, acc[k2], top);
      } else if k2 == col {
        AppendDisjoint(base, recs, acc[k1], top);
      }
    }
  }

  /** The loops keep the lists numbered. */
  lemma {:induction false} VisitsNumbered(step: Step, c: SampleResults.Config, run: nat, idx: nat, ctr: Counters,
                                          acc: map<string, seq<Record>>)
    requires idx <= |c.columns| && NumbersSamples(step)
    requires Numbered(acc) && Below(acc, ctr.sampleId)
    requires Visits(step, c, run, idx, ctr, acc).Ok?
    ensures Numbered(Visits(step, c, run, idx, ctr, acc).value)
    decreases c.runs - run, |c.columns| - idx
  {
    if run >= c.runs {
    } else if idx == |c.columns| {
      VisitsNumbered(step, c, run + 1, 0, ctr, acc);
    } else {
      var v := step(run, idx, ctr).value;
      var recs := v.pre + v.post;
      assert recs[|recs| - 1] == v.post[|v.post| - 1];
      assert After(ctr, v).sampleId == ctr.sampleId + |recs|;
      VisitsStep(step, c, run, idx, ctr, acc, v);
      StoreNumbered(acc, run, c.columns[idx], recs, ctr.sampleId);
      VisitsNumbered(step, c, run, idx + 1, After(ctr, v), Store(acc, run, c.columns[idx], recs).value);
    }
  }

  lemma StepOfFails(c: SampleResults.Config, gen: Generator)
    requires Recovers(gen, c.retestDelay)
    ensures FailsOnQuality(StepOf(c, gen), c)
  {
  }

  lemma StepOfNumbers(c: SampleResults.Config, gen: Generator)
    requires Recovers(gen, c.retestDelay)
    ensures NumbersSamples(StepOf(c, gen))
  {
    forall run: nat, idx: nat, ctr: Counters | StepOf(c, gen)(run, idx, ctr).Ok?
      ensures |StepOf(c, gen)(run, idx, ctr).value.post| >= 1
      ensures ConsecutiveFrom(StepOf(c, gen)(run, idx, ctr).value.pre + StepOf(c, gen)(run, idx, ctr).value.post,
                              ctr.sampleId + 1)
    {
      VisitIds(c, gen, run, idx, ctr);
    }
  }

  /** `generate_samples` returns exactly when `batch_quality` has an entry
      for every column and run; it then has one list per column (none when
      there are no runs). */
  lemma SamplesDefined(c: SampleResults.Config, gen: Generator)
    requires Recovers(gen, c.retestDelay)
    ensures Samples(c, gen).Ok? <==>
      forall run: nat, idx: nat | run < c.runs && idx < |c.columns| :: SampleResults.QualityKnown(c, run, idx)
    ensures Samples(c, gen).Ok? ==> Samples(c, gen).value.Keys == if c.runs > 0 then Columns(c) else {}
  {
    StepOfFails(c, gen);
    VisitsDefined(StepOf(c, gen), c, 0, 0, Start, map[]);
    assert KnownFrom(c, 0, 0) <==>
      forall run: nat, idx: nat | run < c.runs && idx < |c.columns| :: SampleResults.QualityKnown(c, run, idx);
  }

  /** Every result of `generate_samples`, retests included, has its own
      sample id, and each column's list is in increasing sample id order. */
  lemma SamplesNumbered(c: SampleResults.Config, gen: Generator)
    requires Recovers(gen, c.retestDelay)
    requires Samples(c, gen).Ok?
    ensures Numbered(Samples(c, gen).value)
  {
    StepOfNumbers(c, gen);
    VisitsNumbered(StepOf(c, gen), c, 0, 0, Start, map[]);
  }

  // ---------------------------------------------------------------------
  // The imperative loops

  /** `generate_samples`: the counters run on across runs and columns; run
      0 opens each column's list and later runs append to it. `step` names
      the step the loops are proved against. */
  method GenerateSamples(c: SampleResults.Config, gen: Generator, ghost step: Step)
    returns (r: Result<map<string, seq<Record>>>)
    requires Recovers(gen, c.retestDelay) && StepsAre(step, c, gen)
    ensures r == Visits(step, c, 0, 0, Start, map[])
  {
    var sampleResults: map<string, seq<Record>> := map[];
    var batchId := 0;
    var sampleId := 0;
    for run := 0 to c.runs
      invariant Visits(step, c, 0, 0, Start, map[]) == Visits(step, c, run, 0, Counters(batchId, sampleId), sampleResults)
    {
      for idx := 0 to |c.columns|
        invariant Visits(step, c, 0, 0, Start, map[]) == Visits(step, c, run, idx, Counters(batchId, sampleId), sampleResults)
      {
        ghost var ctr := Counters(batchId, sampleId);
        var v := VisitOne(c, gen, run, idx, Counters(batchId, sampleId), step);
        if v.Err? {
          return Err(v.error);
        }
        var col := c.columns[idx];
        var recs := v.value.pre + v.value.post;
        ghost var stored := Store(sampleResults, run, col, recs);
        VisitsStep(step, c, run, idx, ctr, sampleResults, v.value);
        if run == 0 {
          sampleResults := sampleResults[col := recs];
        } else if col !in sampleResults {
          return Err(KeyError(col));
        } else {
          sampleResults := sampleResults[col := sampleResults[col] + recs];
        }
        assert stored == Ok(sampleResults);
        batchId := batchId + 1;
        sampleId := v.value.post[|v.value.post| - 1].req.sampleId;
        assert Counters(batchId, sampleId) == After(ctr, v.value);
      }
    }
    return Ok(sampleResults);
  }

  /** The loops after a step that collects its records. */
  lemma VisitsStep(step: Step, c: SampleResults.Config, run: nat, idx: nat, ctr: Counters,
                   acc: map<string, seq<Record>>, v: Visit)
    requires run < c.runs && idx < |c.columns| && step(run, idx, ctr) == Ok(v)
    ensures Store(acc, run, c.columns[idx], v.pre + v.post).Err? ==>
      Visits(step, c, run, idx, ctr, acc) == Store(acc, run, c.columns[idx], v.pre + v.post)
    ensures Store(acc, run, c.columns[idx], v.pre + v.post).Ok? ==>
      Visits(step, c, run, idx, ctr, acc)
      == Visits(step, c, run, idx + 1, After(ctr, v), Store(acc, run, c.columns[idx], v.pre + v.post).value)
  {
  }

  /** One iteration of the inner loop: the `batch_quality` lookup, then the
      pre-sample and the post-sample with their retests. */
  method VisitOne(c: SampleResults.Config, gen: Generator, run: nat, idx: nat, ctr: Counters, ghost step: Step)
    returns (r: Result<Visit>)
    requires idx < |c.columns| && Recovers(gen, c.retestDelay) && StepsAre(step, c, gen)
    ensures r == step(run, idx, ctr)
    ensures r.Ok? ==> |r.value.post| >= 1
  {
    var batchId := ctr.batchId + 1;
    var instrumentId := InstrumentId(idx);
    var sampleId := ctr.sampleId + 1;
    var times := SampleResults.SampleTimes(c, run);
    var col := c.columns[idx];
    if col !in c.quality || run >= |c.quality[col]| {
      StepRaises(c, gen, step, run, idx, ctr);
      return Err(if col !in c.quality then KeyError(col) else IndexError);
    }
    var badRun := c.quality[col][run] == "bad";
    var q := Request(instrumentId, sampleId, "pre-affinity", batchId, times.0, 1.0, badRun);
    assert q == PreRequest(c, run, idx, ctr);
    assert Passes(gen, q, c.retestDelay);
    var pre := RetestUntilPass(gen, q, c.retestDelay);
    sampleId := pre[|pre| - 1].req.sampleId + 1;
    var q' := Request(instrumentId, sampleId, "post-affinity", batchId, times.1, 5.0, badRun);
    assert q' == PostRequest(c, run, idx, ctr, pre[|pre| - 1].req.sampleId);
    assert Passes(gen, q', c.retestDelay);
    var post := RetestUntilPass(gen, q', c.retestDelay);
    StepVisits(c, gen, step, run, idx, ctr, pre, post);
    return Ok(Visit(pre, post));
  }

  /** A step whose quality entry is missing raises the `KeyError` or
      `IndexError` of the lookup. */
  lemma StepRaises(c: SampleResults.Config, gen: Generator, step: Step, run: nat, idx: nat, ctr: Counters)
    requires idx < |c.columns| && Recovers(gen, c.retestDelay) && StepsAre(step, c, gen)
    requires !SampleResults.QualityKnown(c, run, idx)
    ensures step(run, idx, ctr) == Err(if c.columns[idx] !in c.quality then KeyError(c.columns[idx]) else IndexError)
  {
    assert step(run, idx, ctr) == VisitColumn(c, gen, run, idx, ctr);
  }

  /** A step with a quality entry collects the pre-sample retests, then the
      post-sample retests numbered on from them. */
  lemma StepVisits(c: SampleResults.Config, gen: Generator, step: Step, run: nat, idx: nat, ctr: Counters,
                   pre: seq<Record>, post: seq<Record>)
    requires idx < |c.columns| && Recovers(gen, c.retestDelay) && StepsAre(step, c, gen)
    requires SampleResults.QualityKnown(c, run, idx)
    requires Passes(gen, PreRequest(c, run, idx, ctr), c.retestDelay)
    requires pre == Attempts(gen, PreRequest(c, run, idx, ctr), c.retestDelay)
    requires Passes(gen, PostRequest(c, run, idx, ctr, pre[|pre| - 1].req.sampleId), c.retestDelay)
    requires post == Attempts(gen, PostRequest(c, run, idx, ctr, pre[|pre| - 1].req.sampleId), c.retestDelay)
    ensures step(run, idx, ctr) == Ok(Visit(pre, post))
  {
    assert step(run, idx, ctr) == VisitColumn(c, gen, run, idx, ctr);
  }
}
