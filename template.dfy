/** The chromatography template every generator class starts from, and the
    constructor step the three generator classes share: with `holds=False`
    only the rows with a positive flow setpoint are kept and their
    `time_min` is re-timed to 0, 0.5, 1.0, ... minutes. Also the in-order
    row generators (`get_stream_generator`, `get_event_generator`). */
module Template {
  import opened Common

  /** One template row: its time, flow setpoint, phase name and sensor
      readings. */
  datatype TemplateRow = TemplateRow(timeMin: real, flowSetpointLMin: real, phase: string, values: map<string, real>)

  /** The template table. `columns` are its column names. */
  datatype Table = Table(columns: set<string>, rows: seq<TemplateRow>)

  /** `template_data[template_data["flow_setpoint_L_min"] > 0]` */
  function Running(rows: seq<TemplateRow>): (r: seq<TemplateRow>)
    ensures |r| <= |rows|
    ensures forall i :: 0 <= i < |r| ==> r[i].flowSetpointLMin > 0.0 && r[i] in rows
    ensures forall x :: x in rows && x.flowSetpointLMin > 0.0 ==> x in r
  {
    if rows == [] then []
    else
      var last := rows[|rows| - 1];
      Running(rows[..|rows| - 1]) + (if last.flowSetpointLMin > 0.0 then [last] else [])
  }

  /** The kept rows with `time_min` replaced by `np.arange(0, n * 0.5, 0.5)`. */
  function Retimed(rows: seq<TemplateRow>): (r: seq<TemplateRow>)
    ensures |r| == |rows|
    ensures forall i :: 0 <= i < |r| ==> r[i] == rows[i].(timeMin := 0.5 * i as real)
  {
    seq(|rows|, i requires 0 <= i < |rows| => rows[i].(timeMin := 0.5 * i as real))
  }

  /** The constructor's `holds` step. */
  function ApplyHolds(t: Table, holds: bool): Table
  {
    if holds then t else Table(t.columns, Retimed(Running(t.rows)))
  }

  /** Without holds, every row left has a positive flow setpoint, rows are
      half a minute apart from 0, every running row of the template is kept
      and none is invented; with holds the template is unchanged. */
  lemma ApplyHoldsProperties(t: Table, holds: bool)
    ensures holds ==> ApplyHolds(t, holds) == t
    ensures !holds ==>
      var r := ApplyHolds(t, holds).rows;
      && |r| == |Running(t.rows)|
      && (forall i :: 0 <= i < |r| ==> r[i].flowSetpointLMin > 0.0 && r[i].timeMin == 0.5 * i as real)
      && (forall i :: 0 <= i < |r| ==> r[i].(timeMin := Running(t.rows)[i].timeMin) in t.rows)
      && (forall x :: x in t.rows && x.flowSetpointLMin > 0.0 ==> x in Running(t.rows))
  {
    if !holds {
      var run := Running(t.rows);
      var r := ApplyHolds(t, holds).rows;
      forall i | 0 <= i < |r| ensures r[i].(timeMin := run[i].timeMin) in t.rows {
        assert r[i].(timeMin := run[i].timeMin) == run[i];
      }
    }
  }

  /** Rows are kept in template order: a row kept after another comes after
      it in the template too. */
  lemma {:induction false} RunningInOrder(rows: seq<TemplateRow>, i: nat, j: nat)
    requires i < j < |Running(rows)|
    ensures exists a, b :: 0 <= a < b < |rows| && rows[a] == Running(rows)[i] && rows[b] == Running(rows)[j]
    decreases |rows|
  {
    var init := rows[..|rows| - 1];
    var last := rows[|rows| - 1];
    var ri := Running(init);
    if j < |ri| {
      RunningInOrder(init, i, j);
      var a, b :| 0 <= a < b < |init| && init[a] == ri[i] && init[b] == ri[j];
      assert rows[a] == init[a] && rows[b] == init[b];
    } else {
      assert Running(rows)[j] == last;
      assert Running(rows)[i] == ri[i];
      assert ri[i] in init;
      var a :| 0 <= a < |init| && init[a] == ri[i];
      assert rows[a] == init[a];
    }
  }

  /** `get_stream_generator` / `get_event_generator`: the rows in order; in
      test mode the loop stops after the row labelled 5. */
  function StreamRows<T>(rows: seq<T>, testMode: bool): (r: seq<T>)
    ensures testMode ==> |r| == if |rows| < 6 then |rows| else 6
    ensures !testMode ==> |r| == |rows|
    ensures r == rows[..|r|]
  {
    if testMode && |rows| > 6 then rows[..6] else rows
  }
}
