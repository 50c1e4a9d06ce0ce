/** The trend producer of the data-generation package
    (python_data_generation/src/time_series_trends/main.py,
    `generate_stream`): after the set-up loops, each trend number runs the
    round robin over the columns' generators for that trend, stamps every
    record with its column and its absolute time, and puts it on the queue;
    one "EOF" ends the queue. It sleeps after every pass and after every
    trend; a sleep that raises ends the producer early. Timestamps are
    seconds since the epoch as reals; `isoformat` is a parameter. */
module TrendStream {
  import opened Common
  import opened Queues
  import opened Multiplex
  import opened TrendGenerator
  import opened TrendSetup

  /** A queued data point: the dataset row plus the three stamped fields. */
  datatype TrendPoint = TrendPoint(fields: Row, timeIso: string, timeNs: int, chromUnit: string)

  /** The arguments of `generate_stream` besides the template generators
      (which hold `trend_resolution_hz`). */
  datatype Config = Config(numberOfTrends: nat, columnIds: seq<string>, batchQuality: map<string, seq<string>>,
                           columnUtilGap: real, streamingStart: real, rateAdjust: real)

  /** Line 138: what `time.sleep(1 / trend_resolution_hz /
      stream_rate_adjust_factor)` raises, if anything. */
  function PassPause(hz: real, factor: real): (e: Option<Error>)
    ensures e == Some(ZeroDivisionError) <==> hz == 0.0 || factor == 0.0
    ensures e.None? <==> (hz > 0.0 && factor > 0.0) || (hz < 0.0 && factor < 0.0)
    ensures e.Some? ==> e == Some(ZeroDivisionError) || e == Some(SleepError)
  {
    if hz == 0.0 || factor == 0.0 then Some(ZeroDivisionError)
    else if 1.0 / hz / factor < 0.0 then Some(SleepError)
    else None
  }

  /** Line 139: what `time.sleep(column_util_gap /
      stream_rate_adjust_factor)` raises, if anything. */
  function GapPause(gap: real, factor: real): (e: Option<Error>)
    ensures e == Some(ZeroDivisionError) <==> factor == 0.0
    ensures e.None? <==> (factor > 0.0 && gap >= 0.0) || (factor < 0.0 && gap <= 0.0)
    ensures e.Some? ==> e == Some(ZeroDivisionError) || e == Some(SleepError)
  {
    if factor == 0.0 then Some(ZeroDivisionError)
    else if gap / factor < 0.0 then Some(SleepError)
    else None
  }

  const NsPerSecond: real := 1000000000.0

  /** `streaming_start_ts + trend_no * (max time_sec + column_util_gap)` */
  function BatchStart(start: real, trendNo: nat, maxTimeSec: real, gap: real): real
  {
    start + trendNo as real * (maxTimeSec + gap)
  }

  /** Lines 128-131: the record's time is the batch start plus its
      `time_sec`; it is tagged with its column. */
  function Stamp(iso: real -> string, batchStart: real): (string, Record) -> TrendPoint
  {
    (unit: string, r: Record) =>
      var ts := batchStart + r.timeSec;
      TrendPoint(r.fields, iso(ts), TruncToInt(ts * NsPerSecond), unit)
  }

  /** Every key of the dictionary holds `n` generators. */
  predicate Covers(s: Setup, n: nat)
  {
    forall c :: c in s.keys ==> c in s.gens && |s.gens[c]| == n
  }

  /** `active_generators` of trend `t`: each key with its `t`-th generator,
      in dictionary order. */
  function Active(s: Setup, n: nat, t: nat): (gens: seq<(string, seq<Record>)>)
    requires Covers(s, n) && t < n
    ensures |gens| == |s.keys|
    ensures forall c :: 0 <= c < |gens| ==> gens[c] == (s.keys[c], s.gens[s.keys[c]][t])
  {
    seq(|s.keys|, c requires 0 <= c < |s.keys| => (s.keys[c], s.gens[s.keys[c]][t]))
  }

  /** What trend `t` puts on the queue. */
  function Segment(s: Setup, n: nat, t: nat, batchStart: real, iso: real -> string): seq<TrendPoint>
    requires Covers(s, n) && t < n
  {
    Emitted(Active(s, n, t), Stamp(iso, batchStart))
  }

  /** What each of trends `0..t-1` puts on the queue. */
  function Segments(s: Setup, n: nat, t: nat, start: real, maxTimeSec: real, gap: real, iso: real -> string): (segs: seq<seq<TrendPoint>>)
    requires Covers(s, n) && t <= n
    ensures |segs| == t
    ensures forall k :: 0 <= k < t ==> segs[k] == Segment(s, n, k, BatchStart(start, k, maxTimeSec, gap), iso)
  {
    seq(t, k requires 0 <= k < t => Segment(s, n, k, BatchStart(start, k, maxTimeSec, gap), iso))
  }

  /** The queue up to trend `t`: trend after trend. */
  function Trends(s: Setup, n: nat, t: nat, start: real, maxTimeSec: real, gap: real, iso: real -> string): seq<TrendPoint>
    requires Covers(s, n) && t <= n
  {
    Flatten(Segments(s, n, t, start, maxTimeSec, gap, iso))
  }

  lemma TrendsStep(s: Setup, n: nat, t: nat, start: real, maxTimeSec: real, gap: real, iso: real -> string)
    requires Covers(s, n) && t < n
    ensures Trends(s, n, t + 1, start, maxTimeSec, gap, iso)
         == Trends(s, n, t, start, maxTimeSec, gap, iso) + Segment(s, n, t, BatchStart(start, t, maxTimeSec, gap), iso)
  {
    var segs := Segments(s, n, t + 1, start, maxTimeSec, gap, iso);
    assert segs[..t] == Segments(s, n, t, start, maxTimeSec, gap, iso);
  }

  /** The `time_sec` column of a dataset's rows. */
  function TimeSecs(rs: seq<Record>): (ts: seq<real>)
    ensures |ts| == |rs| && forall k :: 0 <= k < |rs| ==> ts[k] == rs[k].timeSec
  {
    seq(|rs|, k requires 0 <= k < |rs| => rs[k].timeSec)
  }

  lemma SetupCovers(make: (string, nat) -> Result<seq<Record>>, ids: seq<string>, n: nat)
    requires BuildSetup(make, ids, n).Ok?
    ensures Covers(BuildSetup(make, ids, n).value, n)
  {
    assert ids[..|ids|] == ids;
    SetupKeys(make, ids, n, |ids|);
    SetupGenerators(make, ids, n, |ids|);
  }

  /** The queue `generate_stream` leaves and the exception it ends with, if
      any. The set-up and the `max` of line 120 raise before the first put.
      Every sleep after a pass is the same, so if it raises it does so after
      trend 0's first pass; if the sleep after a trend raises, it does so
      once trend 0 is queued. */
  function Stream(cfg: Config, src: Sources, iso: real -> string): Trace<Msg<TrendPoint>>
  {
    var n := cfg.numberOfTrends;
    match BuildSetup(Maker(src, cfg.batchQuality), cfg.columnIds, n)
    case Err(e) => Trace([], Some(e))
    case Ok(s) =>
      if n == 0 then Trace([Eof], None)
      else if s.last.None? then Trace([], Some(UnboundLocalError("simulated_data")))
      else if s.last.value == [] then Trace([], Some(ValueError("max() arg is an empty sequence")))
      else
        SetupCovers(Maker(src, cfg.batchQuality), cfg.columnIds, n);
        var maxTimeSec := MaxOf(TimeSecs(s.last.value));
        var start0 := BatchStart(cfg.streamingStart, 0, maxTimeSec, cfg.columnUtilGap);
        Paced(FirstPass(Active(s, n, 0), Stamp(iso, start0)), Segment(s, n, 0, start0, iso),
              Trends(s, n, n, cfg.streamingStart, maxTimeSec, cfg.columnUtilGap, iso),
              PassPause(src.hz, cfg.rateAdjust), GapPause(cfg.columnUtilGap, cfg.rateAdjust))
  }

  /** The queue once the set-up has passed, given what trend 0's first pass
      puts, what trend 0 puts, what all trends put, and what the two sleeps
      raise. */
  function Paced(first: seq<TrendPoint>, trend0: seq<TrendPoint>, all: seq<TrendPoint>,
                 passPause: Option<Error>, gapPause: Option<Error>): Trace<Msg<TrendPoint>>
  {
    match passPause
    case Some(e) => Trace(Items(first), Some(e))
    case None =>
      match gapPause
      case Some(e) => Trace(Items(trend0), Some(e))
      case None => Trace(Items(all) + [Eof], None)
  }

  /** The queue's shape: points only, and a final "EOF" iff nothing was
      raised, which is where the consumer stops, having taken every point. */
  ghost predicate Ended(r: Trace<Msg<TrendPoint>>)
  {
    && (HasEof(r.out) <==> r.raised.None?)
    && (r.raised.None? ==>
          && |r.out| >= 1 && r.out[|r.out| - 1] == Eof
          && (forall i :: 0 <= i < |r.out| - 1 ==> r.out[i].Item?)
          && |BeforeEof(r.out)| == |r.out| - 1)
    && (r.raised.Some? ==> forall i :: 0 <= i < |r.out| ==> r.out[i].Item?)
  }

  lemma ItemsEnded(xs: seq<TrendPoint>, raised: Option<Error>)
    ensures Ended(Trace(Items(xs) + (if raised.None? then [Eof] else []), raised))
  {
    var q := Items(xs) + (if raised.None? then [Eof] else []);
    if raised.None? {
      ConsumeRoundTrip(xs, []);
      assert Items(xs) + [Eof] + [] == q;
      assert q[|q| - 1].Eof?;
    } else {
      assert q == Items(xs);
    }
  }

  /** The run completes exactly when neither sleep raises; a division by
      zero is raised by the first sleep that divides by zero. */
  lemma PacedEnded(first: seq<TrendPoint>, trend0: seq<TrendPoint>, all: seq<TrendPoint>,
                   passPause: Option<Error>, gapPause: Option<Error>)
    ensures var r := Paced(first, trend0, all, passPause, gapPause);
      && Ended(r)
      && (r.raised.None? <==> passPause.None? && gapPause.None?)
      && (r.raised == Some(ZeroDivisionError) <==>
            passPause == Some(ZeroDivisionError) || (passPause.None? && gapPause == Some(ZeroDivisionError)))
  {
    var r := Paced(first, trend0, all, passPause, gapPause);
    if passPause.Some? {
      assert r == Trace(Items(first) + [], passPause);
      ItemsEnded(first, passPause);
    } else if gapPause.Some? {
      assert r == Trace(Items(trend0) + [], gapPause);
      ItemsEnded(trend0, gapPause);
    } else {
      ItemsEnded(all, None);
    }
  }

  /** A sleep that raises leaves a beginning of the complete queue: what
      trend 0's first pass put, or all of trend 0. */
  lemma PacedPrefix(first: seq<TrendPoint>, trend0: seq<TrendPoint>, all: seq<TrendPoint>,
                    passPause: Option<Error>, gapPause: Option<Error>)
    requires |first| <= |trend0| <= |all| && trend0[..|first|] == first && all[..|trend0|] == trend0
    ensures var r := Paced(first, trend0, all, passPause, gapPause);
      && (r.raised.Some? ==> |r.out| <= |all| && Items(all)[..|r.out|] == r.out)
      && (passPause.Some? ==> |r.out| == |first|)
      && (passPause.None? && gapPause.Some? ==> |r.out| == |trend0|)
  {
    if passPause.Some? {
      assert all[..|first|] == first;
      ItemsPrefix(first, all);
    } else if gapPause.Some? {
      ItemsPrefix(trend0, all);
    }
  }

  /** Past the set-up and the `max`, the queue is the paced one. */
  lemma StreamIsPaced(cfg: Config, src: Sources, iso: real -> string)
    requires BuildSetup(Maker(src, cfg.batchQuality), cfg.columnIds, cfg.numberOfTrends).Ok?
    requires cfg.numberOfTrends > 0
    requires var s := BuildSetup(Maker(src, cfg.batchQuality), cfg.columnIds, cfg.numberOfTrends).value;
      s.last.Some? && s.last.value != []
    ensures var n := cfg.numberOfTrends;
      var s := BuildSetup(Maker(src, cfg.batchQuality), cfg.columnIds, n).value;
      var maxTimeSec := MaxOf(TimeSecs(s.last.value));
      var start0 := BatchStart(cfg.streamingStart, 0, maxTimeSec, cfg.columnUtilGap);
      && Covers(s, n)
      && Stream(cfg, src, iso)
         == Paced(FirstPass(Active(s, n, 0), Stamp(iso, start0)), Segment(s, n, 0, start0, iso),
                  Trends(s, n, n, cfg.streamingStart, maxTimeSec, cfg.columnUtilGap, iso),
                  PassPause(src.hz, cfg.rateAdjust), GapPause(cfg.columnUtilGap, cfg.rateAdjust))
  {
    SetupCovers(Maker(src, cfg.batchQuality), cfg.columnIds, cfg.numberOfTrends);
  }

  // ---------------------------------------------------------------------

  function UnitOf(p: TrendPoint): string
  {
    p.chromUnit
  }

  /** Within a trend, a unit's points are its generator's records, each
      exactly once, in the generator's order, each stamped with the unit. */
  lemma SegmentOfUnit(s: Setup, n: nat, t: nat, batchStart: real, iso: real -> string, c: nat)
    requires Covers(s, n) && t < n && c < |s.keys| && NoDuplicates(s.keys)
    ensures OfKey(Segment(s, n, t, batchStart, iso), UnitOf, s.keys[c])
         == StampSeq(s.gens[s.keys[c]][t], s.keys[c], Stamp(iso, batchStart))
  {
    var stamp := Stamp(iso, batchStart);
    assert KeepsKey(stamp, UnitOf) by {
      forall k, x ensures UnitOf(stamp(k, x)) == k { }
    }
    EmittedOfKey(Active(s, n, t), stamp, UnitOf, c);
  }

  /** Every point of trend `t` is a record of that trend's generator for
      its unit, timed at the batch start plus the record's `time_sec`. */
  lemma SegmentStamps(s: Setup, n: nat, t: nat, batchStart: real, iso: real -> string, i: nat)
    requires Covers(s, n) && t < n && i < |Segment(s, n, t, batchStart, iso)|
    ensures var pt := Segment(s, n, t, batchStart, iso)[i];
      && pt.chromUnit in s.keys
      && exists r :: (&& r in s.gens[pt.chromUnit][t] && pt.fields == r.fields
                      && pt.timeIso == iso(batchStart + r.timeSec)
                      && pt.timeNs == TruncToInt((batchStart + r.timeSec) * NsPerSecond))
  {
    EmittedFrom(Active(s, n, t), Stamp(iso, batchStart), i);
  }

  /** A trend puts as many points as its generators hold together. */
  lemma SegmentLength(s: Setup, n: nat, t: nat, batchStart: real, iso: real -> string)
    requires Covers(s, n) && t < n
    ensures |Segment(s, n, t, batchStart, iso)| == TotalLength(Sequences(Active(s, n, t)))
  {
    EmittedLength(Active(s, n, t), Stamp(iso, batchStart));
  }

  /** All points of an earlier trend are queued before any of a later one. */
  lemma TrendsInOrder(s: Setup, n: nat, t1: nat, t2: nat, start: real, maxTimeSec: real, gap: real, iso: real -> string)
    requires Covers(s, n) && t1 <= t2 <= n
    ensures var early := Trends(s, n, t1, start, maxTimeSec, gap, iso);
      var all := Trends(s, n, t2, start, maxTimeSec, gap, iso);
      |early| <= |all| && all[..|early|] == early
  {
    var segs := Segments(s, n, t2, start, maxTimeSec, gap, iso);
    assert segs[..t1] == Segments(s, n, t1, start, maxTimeSec, gap, iso);
    FlattenPrefix(segs, t1);
  }

  /** With a non-negative trend duration and gap, later trends start no
      earlier. */
  lemma BatchStartMonotone(start: real, t1: nat, t2: nat, maxTimeSec: real, gap: real)
    requires t1 <= t2 && maxTimeSec + gap >= 0.0
    ensures BatchStart(start, t1, maxTimeSec, gap) <= BatchStart(start, t2, maxTimeSec, gap)
  {
    assert (t2 - t1) as real * (maxTimeSec + gap) >= 0.0;
  }

  /** The set-up runs first, so its exception leaves the queue empty; with
      trends requested and no column, `simulated_data` is unbound. */
  lemma StreamErrors(cfg: Config, src: Sources, iso: real -> string)
    ensures var r := Stream(cfg, src, iso); var setup := BuildSetup(Maker(src, cfg.batchQuality), cfg.columnIds, cfg.numberOfTrends);
      && (setup.Err? ==> r == Trace([], Some(setup.error)))
      && (setup.Ok? && cfg.numberOfTrends > 0 && cfg.columnIds == [] ==> r == Trace([], Some(UnboundLocalError("simulated_data"))))
      && (setup.Ok? && (cfg.numberOfTrends == 0 || cfg.columnIds != []) ==> r.raised != Some(UnboundLocalError("simulated_data")))
      && (setup.Ok? && cfg.numberOfTrends == 0 ==> r == Trace([Eof], None))
  {
    var setup := BuildSetup(Maker(src, cfg.batchQuality), cfg.columnIds, cfg.numberOfTrends);
    if setup.Ok? {
      SetupLast(Maker(src, cfg.batchQuality), cfg.columnIds, cfg.numberOfTrends, |cfg.columnIds|);
    }
  }

  /** Once the set-up and the `max` have passed, the producer runs to the
      end exactly when both sleeps are non-negative and defined, and it
      divides by zero exactly when the resolution or the factor is 0. */
  lemma StreamPacing(cfg: Config, src: Sources, iso: real -> string)
    requires BuildSetup(Maker(src, cfg.batchQuality), cfg.columnIds, cfg.numberOfTrends).Ok?
    requires cfg.numberOfTrends > 0
    requires var s := BuildSetup(Maker(src, cfg.batchQuality), cfg.columnIds, cfg.numberOfTrends).value;
      s.last.Some? && s.last.value != []
    ensures var r := Stream(cfg, src, iso);
      && (r.raised.None? <==>
            || (src.hz > 0.0 && cfg.rateAdjust > 0.0 && cfg.columnUtilGap >= 0.0)
            || (src.hz < 0.0 && cfg.rateAdjust < 0.0 && cfg.columnUtilGap <= 0.0))
      && (r.raised == Some(ZeroDivisionError) <==> src.hz == 0.0 || cfg.rateAdjust == 0.0)
  {
    var n := cfg.numberOfTrends;
    var s := BuildSetup(Maker(src, cfg.batchQuality), cfg.columnIds, n).value;
    StreamIsPaced(cfg, src, iso);
    var maxTimeSec := MaxOf(TimeSecs(s.last.value));
    var start0 := BatchStart(cfg.streamingStart, 0, maxTimeSec, cfg.columnUtilGap);
    var passPause := PassPause(src.hz, cfg.rateAdjust);
    var gapPause := GapPause(cfg.columnUtilGap, cfg.rateAdjust);
    PacedEnded(FirstPass(Active(s, n, 0), Stamp(iso, start0)), Segment(s, n, 0, start0, iso),
               Trends(s, n, n, cfg.streamingStart, maxTimeSec, cfg.columnUtilGap, iso), passPause, gapPause);
  }

  /** A sleep that raises leaves a beginning of the complete queue, without
      "EOF": at most one point per unit if the sleep after a pass raises,
      all of trend 0 if only the sleep after a trend does. */
  lemma StreamPartial(cfg: Config, src: Sources, iso: real -> string)
    requires BuildSetup(Maker(src, cfg.batchQuality), cfg.columnIds, cfg.numberOfTrends).Ok?
    requires cfg.numberOfTrends > 0
    requires var s := BuildSetup(Maker(src, cfg.batchQuality), cfg.columnIds, cfg.numberOfTrends).value;
      s.last.Some? && s.last.value != []
    ensures var r := Stream(cfg, src, iso);
      var n := cfg.numberOfTrends;
      var s := BuildSetup(Maker(src, cfg.batchQuality), cfg.columnIds, n).value;
      && Covers(s, n)
      && (r.raised.Some? ==>
            var full := Items(Trends(s, n, n, cfg.streamingStart, MaxOf(TimeSecs(s.last.value)), cfg.columnUtilGap, iso));
            |r.out| <= |full| && full[..|r.out|] == r.out)
      && (PassPause(src.hz, cfg.rateAdjust).Some? ==> |r.out| <= |s.keys|)
      && (PassPause(src.hz, cfg.rateAdjust).None? && r.raised.Some? ==> |r.out| == TotalLength(Sequences(Active(s, n, 0))))
  {
    var n := cfg.numberOfTrends;
    var s := BuildSetup(Maker(src, cfg.batchQuality), cfg.columnIds, n).value;
    StreamIsPaced(cfg, src, iso);
    var maxTimeSec := MaxOf(TimeSecs(s.last.value));
    var start0 := BatchStart(cfg.streamingStart, 0, maxTimeSec, cfg.columnUtilGap);
    var first := Active(s, n, 0);
    var stamp := Stamp(iso, start0);
    var seg := Segment(s, n, 0, start0, iso);
    var all := Trends(s, n, n, cfg.streamingStart, maxTimeSec, cfg.columnUtilGap, iso);
    TrendsStep(s, n, 0, cfg.streamingStart, maxTimeSec, cfg.columnUtilGap, iso);
    TrendsInOrder(s, n, 1, n, cfg.streamingStart, maxTimeSec, cfg.columnUtilGap, iso);
    assert Trends(s, n, 1, cfg.streamingStart, maxTimeSec, cfg.columnUtilGap, iso) == seg;
    SegmentLength(s, n, 0, start0, iso);
    FirstPassPrefix(first, stamp);
    var passPause := PassPause(src.hz, cfg.rateAdjust);
    var gapPause := GapPause(cfg.columnUtilGap, cfg.rateAdjust);
    PacedEnded(FirstPass(first, stamp), seg, all, passPause, gapPause);
    PacedPrefix(FirstPass(first, stamp), seg, all, passPause, gapPause);
  }

  /** The queue of a beginning of the points is a beginning of the queue. */
  lemma ItemsPrefix<T>(ys: seq<T>, xs: seq<T>)
    requires |ys| <= |xs| && xs[..|ys|] == ys
    ensures Items(xs)[..|ys|] == Items(ys)
  {
    assert forall i :: 0 <= i < |ys| ==> Items(xs)[..|ys|][i] == Items(ys)[i];
  }

  /** The queue ends with exactly one "EOF", after every point, exactly when
      nothing was raised; that "EOF" is where the consumer stops, having
      taken every point. After an exception no "EOF" is ever queued. */
  lemma StreamEndsWithEof(cfg: Config, src: Sources, iso: real -> string)
    ensures var r := Stream(cfg, src, iso);
      && (HasEof(r.out) <==> r.raised.None?)
      && (r.raised.None? ==>
            && |r.out| >= 1 && r.out[|r.out| - 1] == Eof
            && (forall i :: 0 <= i < |r.out| - 1 ==> r.out[i].Item?)
            && |BeforeEof(r.out)| == |r.out| - 1)
      && (r.raised.Some? ==> forall i :: 0 <= i < |r.out| ==> r.out[i].Item?)
  {
    var n := cfg.numberOfTrends;
    var make := Maker(src, cfg.batchQuality);
    var setup := BuildSetup(make, cfg.columnIds, n);
    var r := Stream(cfg, src, iso);
    if setup.Err? || (n > 0 && (setup.value.last.None? || setup.value.last.value == [])) {
      ItemsEnded([], r.raised);
      assert r.out == Items([]) + [];
    } else if n == 0 {
      ItemsEnded([], None);
      assert r.out == Items([]) + [Eof];
    } else {
      StreamIsPaced(cfg, src, iso);
      var s := setup.value;
      var maxTimeSec := MaxOf(TimeSecs(s.last.value));
      var start0 := BatchStart(cfg.streamingStart, 0, maxTimeSec, cfg.columnUtilGap);
      PacedEnded(FirstPass(Active(s, n, 0), Stamp(iso, start0)), Segment(s, n, 0, start0, iso),
                 Trends(s, n, n, cfg.streamingStart, maxTimeSec, cfg.columnUtilGap, iso),
                 PassPause(src.hz, cfg.rateAdjust), GapPause(cfg.columnUtilGap, cfg.rateAdjust));
    }
  }

  // ---------------------------------------------------------------------

  /** `generate_stream` */
  method GenerateStream(cfg: Config, src: Sources, iso: real -> string) returns (r: Trace<Msg<TrendPoint>>)
    ensures r == Stream(cfg, src, iso)
  {
    var n := cfg.numberOfTrends;
    var setup := BuildGenerators(Maker(src, cfg.batchQuality), cfg.columnIds, n);
    if setup.Err? {
      return Trace([], Some(setup.error));
    }
    var s := setup.value;
    SetupCovers(Maker(src, cfg.batchQuality), cfg.columnIds, n);
    var pause := PassPause(src.hz, cfg.rateAdjust);
    var gapPause := GapPause(cfg.columnUtilGap, cfg.rateAdjust);
    var puts: seq<TrendPoint> := [];
    var t := 0;
    while t < n
      invariant 0 <= t <= n
      invariant t == 0 ==> puts == []
      invariant t > 0 ==> && s.last.Some? && s.last.value != [] && pause.None? && gapPause.None?
                          && puts == Trends(s, n, t, cfg.streamingStart, MaxOf(TimeSecs(s.last.value)), cfg.columnUtilGap, iso)
    {
      var active := ActiveGenerators(s, n, t);
      if s.last.None? {
        StreamAfterSetup(cfg, src, iso);
        return Trace([], Some(UnboundLocalError("simulated_data")));
      }
      if s.last.value == [] {
        StreamAfterSetup(cfg, src, iso);
        return Trace([], Some(ValueError("max() arg is an empty sequence")));
      }
      var maxTimeSec := MaxOf(TimeSecs(s.last.value));
      var batchStart := BatchStart(cfg.streamingStart, t, maxTimeSec, cfg.columnUtilGap);
      var raised;
      puts, raised := StreamPasses(active, Stamp(iso, batchStart), pause, puts);
      if raised.Some? {
        StreamAfterSetup(cfg, src, iso);
        return Trace(Items(puts), raised);
      }
      TrendsStep(s, n, t, cfg.streamingStart, maxTimeSec, cfg.columnUtilGap, iso);
      if gapPause.Some? {
        assert t == 0 && puts == Segment(s, n, 0, batchStart, iso);
        StreamAfterSetup(cfg, src, iso);
        return Trace(Items(puts), gapPause);
      }
      t := t + 1;
    }
    StreamAfterSetup(cfg, src, iso);
    if n == 0 {
      assert Items(puts) + [Eof] == [Eof];
    }
    r := Trace(Items(puts) + [Eof], None);
  }

  /** `Stream` once the set-up has succeeded, case by case. */
  lemma StreamAfterSetup(cfg: Config, src: Sources, iso: real -> string)
    requires BuildSetup(Maker(src, cfg.batchQuality), cfg.columnIds, cfg.numberOfTrends).Ok?
    ensures var n := cfg.numberOfTrends;
      var s := BuildSetup(Maker(src, cfg.batchQuality), cfg.columnIds, n).value;
      && (n == 0 ==> Stream(cfg, src, iso) == Trace([Eof], None))
      && (n > 0 && s.last.None? ==> Stream(cfg, src, iso) == Trace([], Some(UnboundLocalError("simulated_data"))))
      && (n > 0 && s.last.Some? && s.last.value == [] ==>
            Stream(cfg, src, iso) == Trace([], Some(ValueError("max() arg is an empty sequence"))))
      && (n > 0 && s.last.Some? && s.last.value != [] ==>
            Covers(s, n)
            && var maxTimeSec := MaxOf(TimeSecs(s.last.value));
               var start0 := BatchStart(cfg.streamingStart, 0, maxTimeSec, cfg.columnUtilGap);
               Stream(cfg, src, iso)
               == Paced(FirstPass(Active(s, n, 0), Stamp(iso, start0)), Segment(s, n, 0, start0, iso),
                        Trends(s, n, n, cfg.streamingStart, maxTimeSec, cfg.columnUtilGap, iso),
                        PassPause(src.hz, cfg.rateAdjust), GapPause(cfg.columnUtilGap, cfg.rateAdjust)))
  {
    SetupCovers(Maker(src, cfg.batchQuality), cfg.columnIds, cfg.numberOfTrends);
  }

  /** Lines 115-118: `active_generators` for trend `t`. */
  method ActiveGenerators(s: Setup, n: nat, t: nat) returns (active: seq<(string, seq<Record>)>)
    requires Covers(s, n) && t < n
    ensures active == Active(s, n, t)
  {
    active := [];
    var i := 0;
    while i < |s.keys|
      invariant 0 <= i <= |s.keys|
      invariant active == Active(s, n, t)[..i]
    {
      active := active + [(s.keys[i], s.gens[s.keys[i]][t])];
      i := i + 1;
    }
  }
}
