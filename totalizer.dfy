/** The per-instrument totalizer of the two Cloud Run consumers
    (`handle_event`, identical in gcp_cloud_run/gcs_consumer/main.py and
    gcp_cloud_run/influx_consumer/main.py). For each chromatography unit it
    keeps the last timestamp, the last flow rate and the cumulative volume,
    integrates the flow with the trapezoid rule and annotates the event with
    the running totals. */
module Totalizer {
  import opened Common

  const NsPerSecond: real := 1000000000.0
  const SecondsPerMinute: real := 60.0
  const MlPerLitre: real := 1000.0
  /** Volume of one chromatography column, in litres. */
  const ColumnVolumeL: real := 226.0

  /** One trend reading as the consumers receive it. `readings` holds the
      remaining sensor fields (`time_sec`, `uv_mau`, `cond_mScm`, `ph`,
      `pressure_bar`); `time_iso` may be missing, since only a flush reads
      it; the two totals are absent until `handle_event` annotates the
      event. */
  datatype TrendEvent = TrendEvent(
    chromUnit: string,
    timeNs: int,
    timeIso: Option<string>,
    flowMlMin: real,
    readings: map<string, real>,
    totalizedVolumeMl: Option<real>,
    totalizedColumnVolumes: Option<real>)

  /** The three module-level dictionaries, keyed by `chrom_unit`. */
  datatype UnitState = UnitState(
    lastTimestampNs: map<string, int>,
    lastFlowRate: map<string, real>,
    totalizedVolumeMl: map<string, real>)

  const FreshUnits: UnitState := UnitState(map[], map[], map[])

  /** `d.get(k, default)` */
  function Get<K, V>(m: map<K, V>, k: K, default: V): V
  {
    if k in m then m[k] else default
  }

  /** Volume in mL added between two readings: the mean of the two flows
      (mL/min) times the elapsed time converted from ns to minutes. */
  function TrapezoidIncrement(lastTs: int, lastFlow: real, curTs: int, curFlow: real): real
  {
    ((lastFlow + curFlow) / 2.0) * ((curTs - lastTs) as real / NsPerSecond / SecondsPerMinute)
  }

  function ColumnVolumes(totalMl: real): real
  {
    totalMl / MlPerLitre / ColumnVolumeL
  }

  datatype Handled = Handled(units: UnitState, event: TrendEvent)

  /** `handle_event`: new dictionaries and the annotated event. */
  function HandleEvent(st: UnitState, e: TrendEvent): Handled
  {
    var unit := e.chromUnit;
    var start := Get(st.totalizedVolumeMl, unit, 0.0);
    var total :=
      if unit in st.lastTimestampNs
      then start + TrapezoidIncrement(st.lastTimestampNs[unit], Get(st.lastFlowRate, unit, 0.0), e.timeNs, e.flowMlMin)
      else start;
    Handled(
      UnitState(
        st.lastTimestampNs[unit := e.timeNs],
        st.lastFlowRate[unit := e.flowMlMin],
        st.totalizedVolumeMl[unit := total]),
      e.(totalizedVolumeMl := Some(total), totalizedColumnVolumes := Some(ColumnVolumes(total))))
  }

  /** The three dictionaries gain their keys together. */
  ghost predicate SameUnits(st: UnitState)
  {
    st.lastTimestampNs.Keys == st.lastFlowRate.Keys == st.totalizedVolumeMl.Keys
  }

  /** The state of one unit, read the way `handle_event` reads it. */
  function UnitView(st: UnitState, unit: string): (Option<int>, real, real)
  {
    (if unit in st.lastTimestampNs then Some(st.lastTimestampNs[unit]) else None,
     Get(st.lastFlowRate, unit, 0.0),
     Get(st.totalizedVolumeMl, unit, 0.0))
  }

  lemma HandleEventKeepsSameUnits(st: UnitState, e: TrendEvent)
    requires SameUnits(st)
    ensures SameUnits(HandleEvent(st, e).units)
  {
  }

  /** On the first event of a unit the total starts at 0.0 and nothing is
      integrated. */
  lemma HandleEventFirst(st: UnitState, e: TrendEvent)
    requires SameUnits(st) && e.chromUnit !in st.lastTimestampNs
    ensures HandleEvent(st, e).units.totalizedVolumeMl[e.chromUnit] == 0.0
    ensures HandleEvent(st, e).event.totalizedVolumeMl == Some(0.0)
    ensures HandleEvent(st, e).event.totalizedColumnVolumes == Some(0.0)
  {
  }

  /** On later events the total grows by exactly the trapezoid increment. */
  lemma HandleEventIntegrates(st: UnitState, e: TrendEvent)
    requires SameUnits(st) && e.chromUnit in st.lastTimestampNs
    ensures var u := e.chromUnit;
      HandleEvent(st, e).units.totalizedVolumeMl[u]
      == st.totalizedVolumeMl[u] + TrapezoidIncrement(st.lastTimestampNs[u], st.lastFlowRate[u], e.timeNs, e.flowMlMin)
  {
  }

  /** With a later timestamp and non-negative flows the increment is
      non-negative, so the total never decreases. */
  lemma TrapezoidIncrementNonNegative(lastTs: int, lastFlow: real, curTs: int, curFlow: real)
    requires lastTs < curTs && 0.0 <= lastFlow && 0.0 <= curFlow
    ensures 0.0 <= TrapezoidIncrement(lastTs, lastFlow, curTs, curFlow)
  {
    var avg := (lastFlow + curFlow) / 2.0;
    var minutes := (curTs - lastTs) as real / NsPerSecond / SecondsPerMinute;
    assert 0.0 <= avg && 0.0 < minutes;
    assert 0.0 <= avg * minutes;
  }

  /** After `handle_event` the unit remembers this event's timestamp and
      flow, and the event carries the new total and its column volumes. */
  lemma HandleEventRecords(st: UnitState, e: TrendEvent)
    ensures var h := HandleEvent(st, e); var u := e.chromUnit;
      && h.units.lastTimestampNs[u] == e.timeNs
      && h.units.lastFlowRate[u] == e.flowMlMin
      && h.event.totalizedVolumeMl == Some(h.units.totalizedVolumeMl[u])
      && h.event.totalizedColumnVolumes == Some(h.units.totalizedVolumeMl[u] / 1000.0 / 226.0)
      && h.event.(totalizedVolumeMl := e.totalizedVolumeMl, totalizedColumnVolumes := e.totalizedColumnVolumes) == e
  {
  }

  /** Other units' state is untouched. */
  lemma HandleEventIsolated(st: UnitState, e: TrendEvent, other: string)
    requires other != e.chromUnit
    ensures var h := HandleEvent(st, e).units;
      && (other in h.lastTimestampNs <==> other in st.lastTimestampNs)
      && (other in h.lastFlowRate <==> other in st.lastFlowRate)
      && (other in h.totalizedVolumeMl <==> other in st.totalizedVolumeMl)
      && UnitView(h, other) == UnitView(st, other)
  {
  }

  /** What `handle_event` does to a unit depends on that unit's state only. */
  lemma HandleEventLocal(st1: UnitState, st2: UnitState, e: TrendEvent)
    requires UnitView(st1, e.chromUnit) == UnitView(st2, e.chromUnit)
    ensures HandleEvent(st1, e).event == HandleEvent(st2, e).event
    ensures UnitView(HandleEvent(st1, e).units, e.chromUnit) == UnitView(HandleEvent(st2, e).units, e.chromUnit)
  {
  }
}
