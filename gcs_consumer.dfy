/** The Cloud Run consumer that writes trend data to the bucket
    (gcp_cloud_run/gcs_consumer/main.py): `process_data` drops events that are
    not newer than the unit's last timestamp, totalizes the accepted ones,
    appends them to the unit's buffer and uploads the buffer as one batch when
    it reaches 1000 records. */
module GcsConsumer {
  import opened Common
  import opened Totalizer

  const BufferSizeLimit: nat := 1000

  /** The module-level state: the totalizer's dictionaries and `BUFFER`. */
  datatype ConsumerState = ConsumerState(units: UnitState, buffer: map<string, seq<TrendEvent>>)

  const FreshConsumer: ConsumerState := ConsumerState(FreshUnits, map[])

  /** One batch handed to the bucket. `unit` is the buffer it came from. */
  datatype Upload = Upload(unit: string, path: string, batch: seq<TrendEvent>)

  /** What one call of `process_data` did. `UploadRaised` is the call whose
      upload raised, and `Raised` the call whose flush found no `time_iso`
      to build the path from: both exceptions leave `process_data` after the
      totalizer state was updated and the event appended, and before the
      buffer was reset. */
  datatype Outcome = Skipped | Buffered | Flushed(upload: Upload) | UploadRaised(path: string) | Raised(error: Error)

  datatype Step = Step(state: ConsumerState, outcome: Outcome)

  /** `raw/{unit}/{unit}_trends_{time_iso with ':' replaced by '-'}.parquet` */
  function FlushPath(unit: string, timeIso: string): (path: string)
    ensures path == "raw/" + unit + "/" + unit + "_trends_" + ReplaceChar(timeIso, ':', '-') + ".parquet"
    ensures forall i :: |path| - |timeIso| - 8 <= i < |path| - 8 ==> path[i] != ':'
  {
    "raw/" + unit + "/" + unit + "_trends_" + ReplaceChar(timeIso, ':', '-') + ".parquet"
  }

  predicate IsStale(units: UnitState, e: TrendEvent)
  {
    Get(units.lastTimestampNs, e.chromUnit, 0) >= e.timeNs
  }

  /** `process_data` as a function of the state before the call.
      `uploadSucceeds` stands for whether the bucket upload returns or raises. */
  function ProcessStep(st: ConsumerState, e: TrendEvent, uploadSucceeds: bool): Step
  {
    if IsStale(st.units, e) then Step(st, Skipped)
    else
      var h := HandleEvent(st.units, e);
      var unit := e.chromUnit;
      var buf := Get(st.buffer, unit, []) + [h.event];
      if |buf| >= BufferSizeLimit then
        match h.event.timeIso
        case None => Step(ConsumerState(h.units, st.buffer[unit := buf]), Raised(KeyError("time_iso")))
        case Some(iso) =>
          var path := FlushPath(unit, iso);
          if uploadSucceeds then Step(ConsumerState(h.units, st.buffer[unit := []]), Flushed(Upload(unit, path, buf)))
          else Step(ConsumerState(h.units, st.buffer[unit := buf]), UploadRaised(path))
      else Step(ConsumerState(h.units, st.buffer[unit := buf]), Buffered)
  }

  ghost predicate BuffersBelowLimit(st: ConsumerState)
  {
    forall u :: u in st.buffer ==> |st.buffer[u]| < BufferSizeLimit
  }

  /** Everything stored for one unit. */
  function UnitSlot(st: ConsumerState, unit: string): ((Option<int>, real, real), seq<TrendEvent>)
  {
    (UnitView(st.units, unit), Get(st.buffer, unit, []))
  }

  // ---------------------------------------------------------------------
  // One call

  /** An event not newer than the stored timestamp (0 when the unit is new)
      changes nothing. */
  lemma StaleEventDropped(st: ConsumerState, e: TrendEvent, uploadSucceeds: bool)
    requires Get(st.units.lastTimestampNs, e.chromUnit, 0) >= e.timeNs
    ensures ProcessStep(st, e, uploadSucceeds) == Step(st, Skipped)
  {
  }

  /** A newer event is totalized and appended to its own unit's buffer; if
      that leaves the buffer below the limit nothing is uploaded. */
  lemma AcceptedEventBuffered(st: ConsumerState, e: TrendEvent, uploadSucceeds: bool)
    requires Get(st.units.lastTimestampNs, e.chromUnit, 0) < e.timeNs
    requires |Get(st.buffer, e.chromUnit, [])| + 1 < BufferSizeLimit
    ensures var s := ProcessStep(st, e, uploadSucceeds);
      && s.outcome == Buffered
      && s.state.units == HandleEvent(st.units, e).units
      && s.state.buffer == st.buffer[e.chromUnit := Get(st.buffer, e.chromUnit, []) + [HandleEvent(st.units, e).event]]
  {
  }

  /** When the appended event brings the buffer to 1000 records, the whole
      buffer, in arrival order, is uploaded as one batch under the path of the
      triggering event, and the buffer is reset. */
  lemma FlushAtLimit(st: ConsumerState, e: TrendEvent)
    requires Get(st.units.lastTimestampNs, e.chromUnit, 0) < e.timeNs
    requires |Get(st.buffer, e.chromUnit, [])| + 1 >= BufferSizeLimit
    requires e.timeIso.Some?
    ensures var s := ProcessStep(st, e, true); var ev := HandleEvent(st.units, e).event;
      && s.outcome == Flushed(Upload(e.chromUnit, FlushPath(e.chromUnit, e.timeIso.value), Get(st.buffer, e.chromUnit, []) + [ev]))
      && |s.outcome.upload.batch| >= BufferSizeLimit
      && s.state.buffer[e.chromUnit] == []
  {
  }

  /** Other units' dictionaries and buffers are untouched by any call. */
  lemma OtherUnitsUntouched(st: ConsumerState, e: TrendEvent, uploadSucceeds: bool, other: string)
    requires other != e.chromUnit
    ensures var s := ProcessStep(st, e, uploadSucceeds).state;
      && UnitSlot(s, other) == UnitSlot(st, other)
      && (other in s.buffer <==> other in st.buffer)
  {
    if !IsStale(st.units, e) {
      HandleEventIsolated(st.units, e, other);
    }
  }

  /** A flush of an event without `time_iso` raises `KeyError` at the path,
      whether or not the upload would succeed: the event is already
      totalized and appended, and the full buffer is kept. */
  lemma MissingTimeIsoRaisesAtFlush(st: ConsumerState, e: TrendEvent, uploadSucceeds: bool)
    requires Get(st.units.lastTimestampNs, e.chromUnit, 0) < e.timeNs
    requires |Get(st.buffer, e.chromUnit, [])| + 1 >= BufferSizeLimit
    requires e.timeIso.None?
    ensures var s := ProcessStep(st, e, uploadSucceeds); var h := HandleEvent(st.units, e);
      && s.outcome == Raised(KeyError("time_iso"))
      && s.state.units == h.units
      && s.state.buffer == st.buffer[e.chromUnit := Get(st.buffer, e.chromUnit, []) + [h.event]]
      && |s.state.buffer[e.chromUnit]| >= BufferSizeLimit
  {
  }

  /** With uploads that succeed, every buffer stays below 1000 records,
      unless a flush raised for want of `time_iso`. */
  lemma BufferStaysBelowLimit(st: ConsumerState, e: TrendEvent)
    requires BuffersBelowLimit(st)
    ensures var s := ProcessStep(st, e, true);
      && (s.outcome.Raised? <==> !IsStale(st.units, e) && |Get(st.buffer, e.chromUnit, [])| + 1 >= BufferSizeLimit
                                 && e.timeIso.None?)
      && (!s.outcome.Raised? ==> BuffersBelowLimit(s.state))
  {
  }

  /** A flush that raises, in the upload or for want of `time_iso`, leaves
      the buffer full but the timestamp advanced, so a redelivered copy of
      the same event is skipped as stale. */
  lemma RedeliveryAfterFailedUploadSkipped(st: ConsumerState, e: TrendEvent, uploadSucceeds: bool)
    requires Get(st.units.lastTimestampNs, e.chromUnit, 0) < e.timeNs
    requires |Get(st.buffer, e.chromUnit, [])| + 1 >= BufferSizeLimit
    ensures var s1 := ProcessStep(st, e, false);
      && s1.outcome == (if e.timeIso.Some? then UploadRaised(FlushPath(e.chromUnit, e.timeIso.value))
                        else Raised(KeyError("time_iso")))
      && |s1.state.buffer[e.chromUnit]| >= BufferSizeLimit
      && ProcessStep(s1.state, e, uploadSucceeds) == Step(s1.state, Skipped)
  {
  }

  /** Events at time 0 are always dropped: the stored timestamp defaults to 0. */
  lemma EventAtTimeZeroDropped(e: TrendEvent)
    requires e.timeNs == 0
    ensures ProcessStep(FreshConsumer, e, true).outcome == Skipped
  {
  }

  // ---------------------------------------------------------------------
  // A stream of calls, every upload succeeding

  datatype RunResult = RunResult(state: ConsumerState, accepted: seq<TrendEvent>, uploads: seq<Upload>)

  function Run(st: ConsumerState, es: seq<TrendEvent>): RunResult
    decreases |es|
  {
    if es == [] then RunResult(st, [], [])
    else
      var s := ProcessStep(st, es[0], true);
      var rest := Run(s.state, es[1..]);
      var acc := if s.outcome.Skipped? then [] else [HandleEvent(st.units, es[0]).event];
      var ups := if s.outcome.Flushed? then [s.outcome.upload] else [];
      RunResult(rest.state, acc + rest.accepted, ups + rest.uploads)
  }

  function OfUnit(es: seq<TrendEvent>, unit: string): (r: seq<TrendEvent>)
    ensures |r| <= |es|
  {
    if es == [] then [] else (if es[0].chromUnit == unit then [es[0]] else []) + OfUnit(es[1..], unit)
  }

  function BatchesOf(ups: seq<Upload>, unit: string): seq<TrendEvent>
  {
    if ups == [] then [] else (if ups[0].unit == unit then ups[0].batch else []) + BatchesOf(ups[1..], unit)
  }

  lemma {:induction false} OfUnitAppend(a: seq<TrendEvent>, b: seq<TrendEvent>, unit: string)
    ensures OfUnit(a + b, unit) == OfUnit(a, unit) + OfUnit(b, unit)
  {
    if a == [] {
      assert a + b == b;
    } else {
      var head := if a[0].chromUnit == unit then [a[0]] else [];
      calc {
        OfUnit(a + b, unit);
        { assert (a + b)[0] == a[0]; assert (a + b)[1..] == a[1..] + b; }
        head + OfUnit(a[1..] + b, unit);
        { OfUnitAppend(a[1..], b, unit); }
        head + (OfUnit(a[1..], unit) + OfUnit(b, unit));
        (head + OfUnit(a[1..], unit)) + OfUnit(b, unit);
      }
    }
  }

  /** One call moves a unit's stored timestamp forward only, and only to the
      timestamp of the event it accepts. */
  lemma StepTimestamps(st: ConsumerState, e: TrendEvent)
    ensures var s := ProcessStep(st, e, true);
      && (s.outcome.Skipped? <==> IsStale(st.units, e))
      && (!s.outcome.Skipped? ==>
            && HandleEvent(st.units, e).event.timeNs == e.timeNs
            && HandleEvent(st.units, e).event.chromUnit == e.chromUnit
            && Get(s.state.units.lastTimestampNs, e.chromUnit, 0) == e.timeNs)
      && forall u :: Get(st.units.lastTimestampNs, u, 0) <= Get(s.state.units.lastTimestampNs, u, 0)
  {
  }

  /** Over a run, a unit's stored timestamp never moves backwards. */
  lemma {:induction false} RunTimestampsMonotone(st: ConsumerState, es: seq<TrendEvent>, unit: string)
    ensures Get(st.units.lastTimestampNs, unit, 0) <= Get(Run(st, es).state.units.lastTimestampNs, unit, 0)
    decreases |es|
  {
    if es != [] {
      var s := ProcessStep(st, es[0], true);
      StepTimestamps(st, es[0]);
      RunTimestampsMonotone(s.state, es[1..], unit);
    }
  }

  /** The `i`-th accepted event carries its original timestamp, which lies
      above the unit's stored timestamp before the run and at or below it
      after the run. */
  lemma {:induction false} AcceptedWithinRun(st: ConsumerState, es: seq<TrendEvent>, i: nat)
    requires i < |Run(st, es).accepted|
    ensures var r := Run(st, es); var a := r.accepted[i];
      Get(st.units.lastTimestampNs, a.chromUnit, 0) < a.timeNs
      <= Get(r.state.units.lastTimestampNs, a.chromUnit, 0)
    decreases |es|
  {
    var s := ProcessStep(st, es[0], true);
    var rest := Run(s.state, es[1..]);
    var r := Run(st, es);
    var a := r.accepted[i];
    StepTimestamps(st, es[0]);
    if s.outcome.Skipped? {
      assert r.accepted == rest.accepted;
      AcceptedWithinRun(s.state, es[1..], i);
    } else if i == 0 {
      assert a == HandleEvent(st.units, es[0]).event;
      RunTimestampsMonotone(s.state, es[1..], a.chromUnit);
    } else {
      assert a == rest.accepted[i - 1];
      AcceptedWithinRun(s.state, es[1..], i - 1);
    }
  }

  /** Per unit, the accepted timestamps are strictly increasing. */
  lemma {:induction false} AcceptedStrictlyIncreasing(st: ConsumerState, es: seq<TrendEvent>, i: nat, j: nat)
    requires i < j < |Run(st, es).accepted|
    requires Run(st, es).accepted[i].chromUnit == Run(st, es).accepted[j].chromUnit
    ensures Run(st, es).accepted[i].timeNs < Run(st, es).accepted[j].timeNs
    decreases |es|
  {
    var s := ProcessStep(st, es[0], true);
    var rest := Run(s.state, es[1..]);
    var acc := Run(st, es).accepted;
    StepTimestamps(st, es[0]);
    if s.outcome.Skipped? {
      assert acc == rest.accepted;
      AcceptedStrictlyIncreasing(s.state, es[1..], i, j);
    } else {
      assert acc == [HandleEvent(st.units, es[0]).event] + rest.accepted;
      assert acc[j] == rest.accepted[j - 1];
      if i == 0 {
        AcceptedWithinRun(s.state, es[1..], j - 1);
      } else {
        assert acc[i] == rest.accepted[i - 1];
        AcceptedStrictlyIncreasing(s.state, es[1..], i - 1, j - 1);
      }
    }
  }

  lemma BatchesOfCons(u: Upload, ups: seq<Upload>, unit: string)
    ensures BatchesOf([u] + ups, unit) == (if u.unit == unit then u.batch else []) + BatchesOf(ups, unit)
  {
    assert ([u] + ups)[1..] == ups;
  }

  /** What one call adds to a unit's uploads and buffer. */
  lemma StepPreservesArrivalOrder(st: ConsumerState, e: TrendEvent, unit: string)
    ensures var s := ProcessStep(st, e, true);
      var acc := if s.outcome.Skipped? then [] else [HandleEvent(st.units, e).event];
      var ups := if s.outcome.Flushed? then [s.outcome.upload] else [];
      BatchesOf(ups, unit) + Get(s.state.buffer, unit, []) == Get(st.buffer, unit, []) + OfUnit(acc, unit)
  {
    var s := ProcessStep(st, e, true);
    if s.outcome.Flushed? {
      BatchesOfCons(s.outcome.upload, [], unit);
    }
  }

  /** Chaining two "uploaded then buffered" accounts. */
  lemma ChainAccounts(up1: seq<TrendEvent>, up2: seq<TrendEvent>, start: seq<TrendEvent>, mid: seq<TrendEvent>,
                      end: seq<TrendEvent>, acc1: seq<TrendEvent>, acc2: seq<TrendEvent>)
    requires up1 + mid == start + acc1
    requires up2 + end == mid + acc2
    ensures (up1 + up2) + end == start + (acc1 + acc2)
  {
    calc {
      (up1 + up2) + end;
      up1 + (up2 + end);
      up1 + (mid + acc2);
      (up1 + mid) + acc2;
      (start + acc1) + acc2;
    }
  }

  /** No accepted event is lost or duplicated: a unit's uploaded batches
      followed by what remains in its buffer are its earlier buffer followed
      by its accepted events, in arrival order. */
  lemma {:induction false} UploadsPreserveArrivalOrder(st: ConsumerState, es: seq<TrendEvent>, unit: string)
    ensures var r := Run(st, es);
      BatchesOf(r.uploads, unit) + Get(r.state.buffer, unit, [])
      == Get(st.buffer, unit, []) + OfUnit(r.accepted, unit)
    decreases |es|
  {
    if es != [] {
      var s := ProcessStep(st, es[0], true);
      var rest := Run(s.state, es[1..]);
      var r := Run(st, es);
      var acc := if s.outcome.Skipped? then [] else [HandleEvent(st.units, es[0]).event];
      var ups := if s.outcome.Flushed? then [s.outcome.upload] else [];
      assert r == RunResult(rest.state, acc + rest.accepted, ups + rest.uploads);
      var b0, b1, b2 := Get(st.buffer, unit, []), Get(s.state.buffer, unit, []), Get(rest.state.buffer, unit, []);
      assert BatchesOf(ups, unit) + b1 == b0 + OfUnit(acc, unit) by {
        StepPreservesArrivalOrder(st, es[0], unit);
      }
      assert BatchesOf(rest.uploads, unit) + b2 == b1 + OfUnit(rest.accepted, unit) by {
        UploadsPreserveArrivalOrder(s.state, es[1..], unit);
      }
      assert OfUnit(r.accepted, unit) == OfUnit(acc, unit) + OfUnit(rest.accepted, unit) by {
        OfUnitAppend(acc, rest.accepted, unit);
      }
      assert BatchesOf(r.uploads, unit) == BatchesOf(ups, unit) + BatchesOf(rest.uploads, unit) by {
        if ups == [] {
          assert ups + rest.uploads == rest.uploads;
        } else {
          BatchesOfCons(ups[0], rest.uploads, unit);
          assert [ups[0]] == ups;
        }
      }
      ChainAccounts(BatchesOf(ups, unit), BatchesOf(rest.uploads, unit), b0, b1, b2,
                    OfUnit(acc, unit), OfUnit(rest.accepted, unit));
    }
  }

  /** A unit's totals and buffer depend only on its own events, whatever the
      interleaving with other units' events. */
  lemma {:induction false} RunLocalToUnit(st1: ConsumerState, st2: ConsumerState, es: seq<TrendEvent>, unit: string)
    requires UnitSlot(st1, unit) == UnitSlot(st2, unit)
    ensures UnitSlot(Run(st1, es).state, unit) == UnitSlot(Run(st2, OfUnit(es, unit)).state, unit)
    decreases |es|
  {
    if es != [] {
      var e := es[0];
      var s1 := ProcessStep(st1, e, true);
      if e.chromUnit == unit {
        var s2 := ProcessStep(st2, e, true);
        HandleEventLocal(st1.units, st2.units, e);
        assert UnitSlot(s1.state, unit) == UnitSlot(s2.state, unit);
        assert OfUnit(es, unit) == [e] + OfUnit(es[1..], unit);
        RunLocalToUnit(s1.state, s2.state, es[1..], unit);
        assert OfUnit(es, unit)[1..] == OfUnit(es[1..], unit);
      } else {
        OtherUnitsUntouched(st1, e, true, unit);
        assert OfUnit(es, unit) == OfUnit(es[1..], unit);
        RunLocalToUnit(s1.state, st2, es[1..], unit);
      }
    }
  }

  /** Running a stream with one more event is one more call. */
  lemma {:induction false} RunSnoc(st: ConsumerState, es: seq<TrendEvent>, e: TrendEvent)
    ensures Run(st, es + [e]).state == ProcessStep(Run(st, es).state, e, true).state
    decreases |es|
  {
    if es == [] {
      assert es + [e] == [e];
    } else {
      assert (es + [e])[1..] == es[1..] + [e];
      RunSnoc(ProcessStep(st, es[0], true).state, es[1..], e);
    }
  }

  ghost predicate ConstantFlowStream(es: seq<TrendEvent>, unit: string, flow: real)
  {
    && |es| > 0
    && 0 < es[0].timeNs
    && (forall i :: 0 <= i < |es| ==> es[i].chromUnit == unit && es[i].flowMlMin == flow)
    && (forall i, j :: 0 <= i < j < |es| ==> es[i].timeNs < es[j].timeNs)
  }

  function ElapsedMinutes(from: int, to: int): real
  {
    (to - from) as real / NsPerSecond / SecondsPerMinute
  }

  /** A call changes the totalizer state exactly as `handle_event` does when
      the event is not stale, and not at all otherwise. */
  lemma ProcessStepUnits(st: ConsumerState, e: TrendEvent, uploadSucceeds: bool)
    ensures ProcessStep(st, e, uploadSucceeds).state.units
         == if IsStale(st.units, e) then st.units else HandleEvent(st.units, e).units
  {
  }

  /** The unit was last seen at `t1` with flow `flow`, and its total is
      `flow` times the minutes from `t0` to `t1`. */
  ghost predicate ExactTotal(u: UnitState, unit: string, flow: real, t0: int, t1: int)
  {
    && unit in u.lastTimestampNs && unit in u.lastFlowRate && unit in u.totalizedVolumeMl
    && u.lastTimestampNs[unit] == t1
    && u.lastFlowRate[unit] == flow
    && u.totalizedVolumeMl[unit] == flow * ElapsedMinutes(t0, t1)
  }

  /** One more reading at the same constant flow extends the exact total. */
  lemma ConstantFlowStep(st: ConsumerState, e: TrendEvent, flow: real, t0: int, t1: int)
    requires ExactTotal(st.units, e.chromUnit, flow, t0, t1)
    requires t1 < e.timeNs && e.flowMlMin == flow
    ensures ExactTotal(ProcessStep(st, e, true).state.units, e.chromUnit, flow, t0, e.timeNs)
  {
    ProcessStepUnits(st, e, true);
    HandleEventRecords(st.units, e);
    var d1 := ElapsedMinutes(t0, t1);
    var d2 := ElapsedMinutes(t1, e.timeNs);
    assert TrapezoidIncrement(t1, flow, e.timeNs, flow) == flow * d2;
    assert d1 + d2 == ElapsedMinutes(t0, e.timeNs);
    assert flow * d1 + flow * d2 == flow * (d1 + d2);
  }

  /** The first reading of a fresh consumer opens the unit at total 0.0. */
  lemma FirstReading(e: TrendEvent)
    requires 0 < e.timeNs
    ensures ExactTotal(Run(FreshConsumer, [e]).state.units, e.chromUnit, e.flowMlMin, e.timeNs, e.timeNs)
  {
    assert [e][1..] == [];
    assert ElapsedMinutes(e.timeNs, e.timeNs) == 0.0;
  }

  /** With a constant flow the trapezoid sum is exact: starting from a fresh
      consumer, the unit ends at the last event's timestamp with that flow,
      and its total is the flow times the elapsed minutes between the first
      and the last event. */
  lemma {:induction false} ConstantFlowTotal(es: seq<TrendEvent>, unit: string, flow: real)
    requires ConstantFlowStream(es, unit, flow)
    ensures ExactTotal(Run(FreshConsumer, es).state.units, unit, flow, es[0].timeNs, es[|es| - 1].timeNs)
    decreases |es|
  {
    var n := |es|;
    if n == 1 {
      assert es == [es[0]];
      FirstReading(es[0]);
    } else {
      var last := es[n - 1];
      var init := es[..n - 1];
      assert es == init + [last];
      assert ConstantFlowStream(init, unit, flow) by {
        assert forall i :: 0 <= i < |init| ==> init[i] == es[i];
      }
      ConstantFlowTotal(init, unit, flow);
      RunSnoc(FreshConsumer, init, last);
      assert es[n - 2].timeNs < last.timeNs;
      ConstantFlowStep(Run(FreshConsumer, init).state, last, flow, es[0].timeNs, es[n - 2].timeNs);
    }
  }

  /** Two readings one minute apart at 60 mL/min add 60 mL. */
  lemma OneMinuteAtSixtyMlPerMinute(a: TrendEvent, b: TrendEvent)
    requires a.chromUnit == b.chromUnit && a.flowMlMin == 60.0 && b.flowMlMin == 60.0
    requires a.timeNs == 1 && b.timeNs == 60_000_000_001
    ensures Get(Run(FreshConsumer, [a, b]).state.units.totalizedVolumeMl, a.chromUnit, 0.0) == 60.0
  {
    assert ConstantFlowStream([a, b], a.chromUnit, 60.0);
    ConstantFlowTotal([a, b], a.chromUnit, 60.0);
  }

  // ---------------------------------------------------------------------
  // The module-level dictionaries, updated in place

  class Consumer {
    var lastTimestampNs: map<string, int>
    var lastFlowRate: map<string, real>
    var totalizedVolumeMl: map<string, real>
    var buffer: map<string, seq<TrendEvent>>
    /** Every batch the bucket has received, in upload order. */
    ghost var uploads: seq<Upload>

    function Units(): UnitState
      reads this
    {
      UnitState(lastTimestampNs, lastFlowRate, totalizedVolumeMl)
    }

    function State(): ConsumerState
      reads this
    {
      ConsumerState(Units(), buffer)
    }

    constructor ()
      ensures State() == FreshConsumer && uploads == []
    {
      lastTimestampNs, lastFlowRate, totalizedVolumeMl := map[], map[], map[];
      buffer := map[];
      uploads := [];
    }

    /** `handle_event` */
    method HandleEvent(event: TrendEvent) returns (annotated: TrendEvent)
      modifies this
      ensures Handled(Units(), annotated) == Totalizer.HandleEvent(old(Units()), event)
      ensures buffer == old(buffer) && uploads == old(uploads)
    {
      var unit := event.chromUnit;
      var curTs := event.timeNs;
      var curFlow := event.flowMlMin;
      var lastFlow := Get(lastFlowRate, unit, 0.0);
      if unit !in totalizedVolumeMl {
        totalizedVolumeMl := totalizedVolumeMl[unit := 0.0];
      }
      if unit in lastTimestampNs {
        var lastTs := lastTimestampNs[unit];
        var deltaMin := (curTs - lastTs) as real / 1000000000.0 / 60.0;
        var avgFlow := (lastFlow + curFlow) / 2.0;
        var deltaVol := avgFlow * deltaMin;
        assert deltaVol == TrapezoidIncrement(lastTs, lastFlow, curTs, curFlow);
        totalizedVolumeMl := totalizedVolumeMl[unit := totalizedVolumeMl[unit] + deltaVol];
      }
      var totColVol := totalizedVolumeMl[unit] / 1000.0 / 226.0;
      lastTimestampNs := lastTimestampNs[unit := curTs];
      lastFlowRate := lastFlowRate[unit := curFlow];
      annotated := event.(totalizedVolumeMl := Some(totalizedVolumeMl[unit]), totalizedColumnVolumes := Some(totColVol));
      assert totColVol == ColumnVolumes(totalizedVolumeMl[unit]);
    }

    /** `process_data`; `outcome` says whether the event was skipped,
        buffered or flushed, or which exception left the call. */
    method ProcessData(data: TrendEvent, uploadSucceeds: bool) returns (outcome: Outcome)
      modifies this
      ensures var s := ProcessStep(old(State()), data, uploadSucceeds);
        && State() == s.state
        && outcome == s.outcome
        && uploads == old(uploads) + (if s.outcome.Flushed? then [s.outcome.upload] else [])
    {
      var unit := data.chromUnit;
      var curTs := data.timeNs;
      if Get(lastTimestampNs, unit, 0) >= curTs {
        return Skipped;
      }
      var event := HandleEvent(data);
      if unit !in buffer {
        buffer := buffer[unit := []];
      }
      buffer := buffer[unit := buffer[unit] + [event]];
      outcome := Buffered;
      if |buffer[unit]| >= BufferSizeLimit {
        if event.timeIso.None? {
          return Raised(KeyError("time_iso"));
        }
        var path := FlushPath(unit, event.timeIso.value);
        if !uploadSucceeds {
          return UploadRaised(path);
        }
        outcome := Flushed(Upload(unit, path, buffer[unit]));
        uploads := uploads + [outcome.upload];
        buffer := buffer[unit := []];
      }
    }
  }
}
