/** The local trend streamer (python/src/time_series_trends/main.py,
    `generate_stream`): the same set-up loops and the same round robin per
    trend, but every record's `time_sec` is replaced by the streaming start
    plus its `time_sec` (no per-trend offset) and the record is printed
    with its column, instead of being queued. It sleeps after every pass
    and after every trend, without a rate adjustment factor. */
module TrendPrint {
  import opened Common
  import opened Multiplex
  import opened TrendGenerator
  import opened TrendSetup
  import TrendStream

  /** A printed line `{col_key}: {data_point}`. */
  datatype PrintedPoint = PrintedPoint(chromUnit: string, fields: Row)

  /** The arguments of this `generate_stream` besides the templates. */
  datatype Config = Config(numberOfTrends: nat, columnIds: seq<string>, batchQuality: map<string, seq<string>>,
                           streamingStart: real, streamRateHz: real, columnUtilGap: real)

  /** Line 93: what `time.sleep(1.0 / stream_rate_hz)` raises, if anything. */
  function RatePause(rateHz: real): (e: Option<Error>)
    ensures e == Some(ZeroDivisionError) <==> rateHz == 0.0
    ensures e.None? <==> rateHz > 0.0
    ensures e.Some? ==> e == Some(ZeroDivisionError) || e == Some(SleepError)
  {
    if rateHz == 0.0 then Some(ZeroDivisionError)
    else if 1.0 / rateHz < 0.0 then Some(SleepError)
    else None
  }

  /** Line 94: what `time.sleep(column_util_gap)` raises, if anything. */
  function GapPause(gap: real): (e: Option<Error>)
    ensures e.None? <==> gap >= 0.0
    ensures e.Some? ==> e == Some(SleepError)
  {
    if gap < 0.0 then Some(SleepError) else None
  }

  /** Line 88: `time_sec` becomes the absolute time. */
  function Shift(start: real): (string, Record) -> PrintedPoint
  {
    (unit: string, r: Record) => PrintedPoint(unit, r.fields["time_sec" := start + r.timeSec])
  }

  function UnitOf(p: PrintedPoint): string
  {
    p.chromUnit
  }

  /** What trend `t` prints. */
  function TrendLines(s: Setup, n: nat, t: nat, start: real): seq<PrintedPoint>
    requires TrendStream.Covers(s, n) && t < n
  {
    Emitted(TrendStream.Active(s, n, t), Shift(start))
  }

  function AllLines(s: Setup, n: nat, t: nat, start: real): (segs: seq<seq<PrintedPoint>>)
    requires TrendStream.Covers(s, n) && t <= n
    ensures |segs| == t
    ensures forall k :: 0 <= k < t ==> segs[k] == TrendLines(s, n, k, start)
  {
    seq(t, k requires 0 <= k < t => TrendLines(s, n, k, start))
  }

  /** Everything printed, trend after trend, and the exception the printer
      ends with, if any: the set-up raises before anything is printed;
      every sleep after a pass is the same, so if it raises it does so after
      trend 0's first pass; the sleep after a trend raises once trend 0 is
      printed. */
  function Printed(cfg: Config, src: Sources): Trace<PrintedPoint>
  {
    var n := cfg.numberOfTrends;
    match BuildSetup(Maker(src, cfg.batchQuality), cfg.columnIds, n)
    case Err(e) => Trace([], Some(e))
    case Ok(s) =>
      TrendStream.SetupCovers(Maker(src, cfg.batchQuality), cfg.columnIds, n);
      if n == 0 then Trace([], None)
      else
        match RatePause(cfg.streamRateHz)
        case Some(e) => Trace(FirstPass(TrendStream.Active(s, n, 0), Shift(cfg.streamingStart)), Some(e))
        case None =>
          match GapPause(cfg.columnUtilGap)
          case Some(e) => Trace(TrendLines(s, n, 0, cfg.streamingStart), Some(e))
          case None => Trace(Flatten(AllLines(s, n, n, cfg.streamingStart)), None)
  }

  // ---------------------------------------------------------------------

  /** Within a trend, a unit's lines are its generator's records, each
      exactly once, in order, with `time_sec` moved by the streaming start
      and every other field unchanged. */
  lemma TrendLinesOfUnit(s: Setup, n: nat, t: nat, start: real, c: nat)
    requires TrendStream.Covers(s, n) && t < n && c < |s.keys| && NoDuplicates(s.keys)
    ensures var lines := OfKey(TrendLines(s, n, t, start), UnitOf, s.keys[c]);
      var rs := s.gens[s.keys[c]][t];
      && |lines| == |rs|
      && forall k :: 0 <= k < |rs| ==>
           && lines[k].chromUnit == s.keys[c]
           && "time_sec" in lines[k].fields && lines[k].fields["time_sec"] == start + rs[k].timeSec
           && forall f :: f in rs[k].fields && f != "time_sec" ==> f in lines[k].fields && lines[k].fields[f] == rs[k].fields[f]
  {
    var shift := Shift(start);
    assert KeepsKey(shift, UnitOf) by {
      forall k, x ensures UnitOf(shift(k, x)) == k { }
    }
    EmittedOfKey(TrendStream.Active(s, n, t), shift, UnitOf, c);
  }

  /** All lines of an earlier trend are printed before any of a later one. */
  lemma LinesInOrder(s: Setup, n: nat, t1: nat, t2: nat, start: real)
    requires TrendStream.Covers(s, n) && t1 <= t2 <= n
    ensures var early := Flatten(AllLines(s, n, t1, start));
      var all := Flatten(AllLines(s, n, t2, start));
      |early| <= |all| && all[..|early|] == early
  {
    var segs := AllLines(s, n, t2, start);
    assert segs[..t1] == AllLines(s, n, t1, start);
    FlattenPrefix(segs, t1);
  }

  /** The set-up runs before anything is printed and its exception is
      raised as is. Otherwise the printer runs to the end exactly when there
      are no trends or both sleeps are non-negative and defined, and what it
      prints is a beginning of all trends' lines: at most one line per unit
      if the sleep after a pass raises. There is no `max` over the last
      dataset here, so no column ids means nothing printed. */
  lemma PrintedErrors(cfg: Config, src: Sources)
    ensures var setup := BuildSetup(Maker(src, cfg.batchQuality), cfg.columnIds, cfg.numberOfTrends);
      var r := Printed(cfg, src);
      && (setup.Err? ==> r == Trace([], Some(setup.error)))
      && (setup.Ok? ==>
            && (r.raised.None? <==> cfg.numberOfTrends == 0 || (cfg.streamRateHz > 0.0 && cfg.columnUtilGap >= 0.0))
            && TrendStream.Covers(setup.value, cfg.numberOfTrends)
            && (var full := Flatten(AllLines(setup.value, cfg.numberOfTrends, cfg.numberOfTrends, cfg.streamingStart));
                |r.out| <= |full| && full[..|r.out|] == r.out)
            && (cfg.numberOfTrends > 0 && cfg.streamRateHz <= 0.0 ==> |r.out| <= |setup.value.keys|))
      && (cfg.columnIds == [] ==> r.out == [])
  {
    var n := cfg.numberOfTrends;
    var make := Maker(src, cfg.batchQuality);
    var setup := BuildSetup(make, cfg.columnIds, n);
    if setup.Ok? {
      var s := setup.value;
      var start := cfg.streamingStart;
      TrendStream.SetupCovers(make, cfg.columnIds, n);
      var segs := AllLines(s, n, n, start);
      var full := Flatten(segs);
      var r := Printed(cfg, src);
      if n > 0 {
        var first := TrendStream.Active(s, n, 0);
        FirstPassPrefix(first, Shift(start));
        FlattenPrefix(segs, 1);
        assert segs[..1] == [segs[0]];
        assert Flatten(segs[..1]) == TrendLines(s, n, 0, start) by {
          assert Flatten([segs[0]]) == Flatten([]) + segs[0];
        }
      }
      if cfg.columnIds == [] {
        assert s.keys == [];
        forall k | 0 <= k < |segs| ensures segs[k] == [] {
          var active := TrendStream.Active(s, n, k);
          EmittedLength(active, Shift(start));
          assert Sequences(active) == [];
        }
        FlattenEmpty(segs);
      }
    }
  }

  lemma {:induction false} FlattenEmpty<T>(xss: seq<seq<T>>)
    requires forall k :: 0 <= k < |xss| ==> xss[k] == []
    ensures Flatten(xss) == []
  {
    if xss != [] {
      FlattenEmpty(xss[..|xss| - 1]);
    }
  }

  // ---------------------------------------------------------------------

  /** `generate_stream` */
  method GenerateStream(cfg: Config, src: Sources) returns (r: Trace<PrintedPoint>)
    ensures r == Printed(cfg, src)
  {
    var n := cfg.numberOfTrends;
    var setup := BuildGenerators(Maker(src, cfg.batchQuality), cfg.columnIds, n);
    if setup.Err? {
      return Trace([], Some(setup.error));
    }
    var s := setup.value;
    TrendStream.SetupCovers(Maker(src, cfg.batchQuality), cfg.columnIds, n);
    var pause := RatePause(cfg.streamRateHz);
    var gapPause := GapPause(cfg.columnUtilGap);
    var printed: seq<PrintedPoint> := [];
    var t := 0;
    while t < n
      invariant 0 <= t <= n
      invariant printed == Flatten(AllLines(s, n, t, cfg.streamingStart))
      invariant t > 0 ==> pause.None? && gapPause.None?
    {
      var active := TrendStream.ActiveGenerators(s, n, t);
      var raised;
      printed, raised := StreamPasses(active, Shift(cfg.streamingStart), pause, printed);
      if raised.Some? {
        assert t == 0 && Flatten(AllLines(s, n, 0, cfg.streamingStart)) == [];
        return Trace(printed, raised);
      }
      assert AllLines(s, n, t + 1, cfg.streamingStart)[..t] == AllLines(s, n, t, cfg.streamingStart);
      if gapPause.Some? {
        assert t == 0 && Flatten(AllLines(s, n, 0, cfg.streamingStart)) == [];
        return Trace(printed, gapPause);
      }
      t := t + 1;
    }
    r := Trace(printed, None);
  }
}
