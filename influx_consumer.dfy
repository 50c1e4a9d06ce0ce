/** The Cloud Run consumer that writes trend readings to InfluxDB
    (gcp_cloud_run/influx_consumer/main.py). `process_data` drops an event
    that is not newer than the unit's stored timestamp and otherwise writes
    one point. It never stores a timestamp itself: only the deprecated
    `handle_event`, which nothing calls, does. */
module InfluxConsumer {
  import opened Common
  import opened Totalizer

  /** The point handed to the database client. */
  datatype Point = Point(measurement: string, instrument: string, fields: seq<(string, real)>, timeNs: int)

  /** The point's fields, in the order they are attached. */
  const PointFields: seq<string> := ["time_sec", "uv_mau", "cond_mScm", "ph", "flow_mL_min", "pressure_bar"]

  /** `data[name]`: the flow is a field of every event, the rest may be missing. */
  function Field(e: TrendEvent, name: string): Option<real>
  {
    if name == "flow_mL_min" then Some(e.flowMlMin)
    else if name in e.readings then Some(e.readings[name])
    else None
  }

  /** Reads the named fields in order; the first missing one raises `KeyError`. */
  function Fields(e: TrendEvent, names: seq<string>): (r: Result<seq<(string, real)>>)
    ensures r.Ok? <==> forall i :: 0 <= i < |names| ==> Field(e, names[i]).Some?
    ensures r.Ok? ==>
              && |r.value| == |names|
              && forall i :: 0 <= i < |names| ==> r.value[i] == (names[i], Field(e, names[i]).value)
    ensures r.Err? ==>
              exists k :: (&& 0 <= k < |names| && r.error == KeyError(names[k])
                           && Field(e, names[k]).None? && forall i :: 0 <= i < k ==> Field(e, names[i]).Some?)
  {
    if names == [] then Ok([])
    else
      match Field(e, names[0])
      case None => Err(KeyError(names[0]))
      case Some(v) =>
        var rest := Fields(e, names[1..]);
        if rest.Err? then
          var k :| 0 < k + 1 <= |names[1..]| && rest.error == KeyError(names[1..][k])
            && Field(e, names[1..][k]).None? && forall i :: 0 <= i < k ==> Field(e, names[1..][i]).Some?;
          assert forall i :: 0 <= i < k + 1 ==> Field(e, names[i]).Some? by {
            forall i | 0 <= i < k + 1 ensures Field(e, names[i]).Some? {
              if i > 0 { assert names[i] == names[1..][i - 1]; }
            }
          }
          Err(rest.error)
        else
          assert forall i :: 1 <= i < |names| ==> names[i] == names[1..][i - 1];
          Ok([(names[0], v)] + rest.value)
  }

  /** The point `process_data` builds, tagged with the unit and timed at `time_ns`. */
  function ToPoint(e: TrendEvent): Result<Point>
  {
    match Fields(e, PointFields)
    case Err(err) => Err(err)
    case Ok(fs) => Ok(Point("chromatography", e.chromUnit, fs, e.timeNs))
  }

  /** What one call of `process_data` does. */
  datatype Outcome = Skipped | Written(point: Point) | Raised(error: Error)

  function ProcessStep(lastTimestampNs: map<string, int>, e: TrendEvent): Outcome
  {
    if Get(lastTimestampNs, e.chromUnit, 0) >= e.timeNs then Skipped
    else
      match ToPoint(e)
      case Err(err) => Raised(err)
      case Ok(p) => Written(p)
  }

  /** The points a sequence of calls writes; the stored timestamps never
      change between calls, so every call sees the same dictionary. */
  function WrittenPoints(lastTimestampNs: map<string, int>, es: seq<TrendEvent>): seq<Point>
  {
    if es == [] then []
    else
      var o := ProcessStep(lastTimestampNs, es[0]);
      (if o.Written? then [o.point] else []) + WrittenPoints(lastTimestampNs, es[1..])
  }

  /** An event carrying every reading. */
  ghost predicate Complete(e: TrendEvent)
  {
    forall i :: 0 <= i < |PointFields| ==> Field(e, PointFields[i]).Some?
  }

  /** The events a consumer in state `lastTimestampNs` writes. */
  function Passing(lastTimestampNs: map<string, int>, es: seq<TrendEvent>): seq<TrendEvent>
  {
    if es == [] then []
    else
      var e := es[0];
      var keep := Get(lastTimestampNs, e.chromUnit, 0) < e.timeNs && ToPoint(e).Ok?;
      (if keep then [e] else []) + Passing(lastTimestampNs, es[1..])
  }

  // ---------------------------------------------------------------------

  /** A stale event writes nothing. */
  lemma StaleEventSkipped(lastTimestampNs: map<string, int>, e: TrendEvent)
    requires Get(lastTimestampNs, e.chromUnit, 0) >= e.timeNs
    ensures ProcessStep(lastTimestampNs, e) == Skipped
  {
  }

  /** A newer, complete event is written as exactly one point: measurement
      "chromatography", tag `instrument` = the unit, timed at `time_ns`, with
      the six readings in order. */
  lemma NewEventWritten(lastTimestampNs: map<string, int>, e: TrendEvent)
    requires Get(lastTimestampNs, e.chromUnit, 0) < e.timeNs
    requires Complete(e)
    ensures var o := ProcessStep(lastTimestampNs, e);
      && o.Written?
      && o.point.measurement == "chromatography"
      && o.point.instrument == e.chromUnit
      && o.point.timeNs == e.timeNs
      && |o.point.fields| == 6
      && o.point.fields[4] == ("flow_mL_min", e.flowMlMin)
      && forall i :: 0 <= i < 6 && i != 4 ==> o.point.fields[i] == (PointFields[i], e.readings[PointFields[i]])
  {
  }

  /** A newer event missing a reading raises `KeyError` for the first
      missing one and writes nothing. */
  lemma MissingReadingRaises(lastTimestampNs: map<string, int>, e: TrendEvent)
    requires Get(lastTimestampNs, e.chromUnit, 0) < e.timeNs
    requires !Complete(e)
    ensures var o := ProcessStep(lastTimestampNs, e);
      && o.Raised?
      && exists k :: 0 <= k < 6 && o.error == KeyError(PointFields[k]) && PointFields[k] !in e.readings
  {
  }

  /** The written points are the passing events' points, one each, in order. */
  lemma {:induction false} WrittenPointsArePassing(lastTimestampNs: map<string, int>, es: seq<TrendEvent>)
    ensures var ps := WrittenPoints(lastTimestampNs, es); var pass := Passing(lastTimestampNs, es);
      && |ps| == |pass|
      && forall i :: 0 <= i < |ps| ==> Ok(ps[i]) == ToPoint(pass[i])
  {
    if es != [] {
      WrittenPointsArePassing(lastTimestampNs, es[1..]);
    }
  }

  /** Since nothing stores a timestamp, a consumer that started fresh writes
      every complete event with `time_ns > 0`: duplicates and out-of-order
      events included. */
  lemma {:induction false} FreshConsumerWritesAll(es: seq<TrendEvent>)
    requires forall i :: 0 <= i < |es| ==> 0 < es[i].timeNs && Complete(es[i])
    ensures Passing(map[], es) == es
    ensures |WrittenPoints(map[], es)| == |es|
  {
    if es != [] {
      FreshConsumerWritesAll(es[1..]);
      assert ToPoint(es[0]).Ok?;
      WrittenPointsArePassing(map[], es);
    }
  }

  /** The same event delivered twice is written twice. */
  lemma DuplicateWrittenTwice(e: TrendEvent)
    requires 0 < e.timeNs && Complete(e)
    ensures var ps := WrittenPoints(map[], [e, e]); |ps| == 2 && ps[0] == ps[1]
  {
    FreshConsumerWritesAll([e, e]);
    WrittenPointsArePassing(map[], [e, e]);
  }

  // ---------------------------------------------------------------------
  // The module-level dictionaries, updated in place

  class Consumer {
    var lastTimestampNs: map<string, int>
    var lastFlowRate: map<string, real>
    var totalizedVolumeMl: map<string, real>
    /** Every point the database has received, in write order. */
    ghost var written: seq<Point>

    function Units(): UnitState
      reads this
    {
      UnitState(lastTimestampNs, lastFlowRate, totalizedVolumeMl)
    }

    constructor ()
      ensures Units() == FreshUnits && written == []
    {
      lastTimestampNs, lastFlowRate, totalizedVolumeMl := map[], map[], map[];
      written := [];
    }

    /** `process_data`: reads the stored timestamps and writes at most one
        point; the dictionaries are left as they were. */
    method ProcessData(data: TrendEvent) returns (outcome: Outcome)
      modifies this
      ensures outcome == ProcessStep(old(lastTimestampNs), data)
      ensures Units() == old(Units())
      ensures written == old(written) + (if outcome.Written? then [outcome.point] else [])
    {
      var unit := data.chromUnit;
      var curTs := data.timeNs;
      if Get(lastTimestampNs, unit, 0) >= curTs {
        return Skipped;
      }
      var point := ToPoint(data);
      if point.Err? {
        return Raised(point.error);
      }
      written := written + [point.value];
      outcome := Written(point.value);
    }

    /** `handle_event` (deprecated and not called by `process_data`). */
    method HandleEvent(event: TrendEvent) returns (annotated: TrendEvent)
      modifies this
      ensures Handled(Units(), annotated) == Totalizer.HandleEvent(old(Units()), event)
      ensures written == old(written)
    {
      var unit := event.chromUnit;
      var curTs := event.timeNs;
      var curFlow := event.flowMlMin;
      var lastFlow := Get(lastFlowRate, unit, 0.0);
      if unit !in totalizedVolumeMl {
        totalizedVolumeMl := totalizedVolumeMl[unit := 0.0];
      }
      if unit in lastTimestampNs {
        var lastTs := lastTimestampNs[unit];
        var deltaMin := (curTs - lastTs) as real / 1000000000.0 / 60.0;
        var avgFlow := (lastFlow + curFlow) / 2.0;
        var deltaVol := avgFlow * deltaMin;
        assert deltaVol == TrapezoidIncrement(lastTs, lastFlow, curTs, curFlow);
        totalizedVolumeMl := totalizedVolumeMl[unit := totalizedVolumeMl[unit] + deltaVol];
      }
      var totColVol := totalizedVolumeMl[unit] / 1000.0 / 226.0;
      lastTimestampNs := lastTimestampNs[unit := curTs];
      lastFlowRate := lastFlowRate[unit := curFlow];
      annotated := event.(totalizedVolumeMl := Some(totalizedVolumeMl[unit]), totalizedColumnVolumes := Some(totColVol));
      assert totColVol == ColumnVolumes(totalizedVolumeMl[unit]);
    }
  }
}
