/** The batch-context generator of the streaming pipeline
    (python_data_generation/src/batch_context/batch_context_generator.py):
    from the template, after the `holds` step, one batch's two batch events
    (`batch_start` and `batch_end`) and its phase events (`phase_start` and
    `phase_end` of every phase, sorted by time). Its `get_event_generator`
    yields the phase events in order, as `Template.StreamRows` does. */
module BatchContextGenerator {
  import opened Common
  import opened Template
  import opened Sorting
  import opened PhaseTable

  /** One row of `simulated_batch_data`. */
  datatype BatchEvent = BatchEvent(recipeName: string, batchId: nat, chromId: string, event: string, eventTs: real)

  /** One row of `simulated_phase_data`. */
  datatype PhaseRecord = PhaseRecord(phase: string, event: string, eventTs: real)

  /** Python's `min` (and `max`) of an empty column. */
  const EmptyMin := ValueError("min() arg is an empty sequence")

  function TimeMins(rows: seq<TemplateRow>): (ts: seq<real>)
    ensures |ts| == |rows|
    ensures forall i :: 0 <= i < |rows| ==> ts[i] == rows[i].timeMin
  {
    seq(|rows|, i requires 0 <= i < |rows| => rows[i].timeMin)
  }

  /** The two events of a batch over a non-empty template: it starts at the
      template's first minute and ends at its last. */
  function BatchRows(rows: seq<TemplateRow>, recipe: string, batchId: nat, chromId: string, exec: real): seq<BatchEvent>
    requires rows != []
  {
    [BatchEvent(recipe, batchId, chromId, "batch_start", exec + MinOf(TimeMins(rows)) * 60.0),
     BatchEvent(recipe, batchId, chromId, "batch_end", exec + MaxOf(TimeMins(rows)) * 60.0)]
  }

  /** `_generate_batch_data`: `min` raises on an empty template. */
  function BatchData(rows: seq<TemplateRow>, recipe: string, batchId: nat, chromId: string, exec: real): Result<seq<BatchEvent>>
  {
    if rows == [] then Err(EmptyMin) else Ok(BatchRows(rows, recipe, batchId, chromId, exec))
  }

  /** The `phase_start` or `phase_end` event of every span. */
  function PhaseEvents(spans: seq<PhaseSpan>, atEnd: bool, exec: real): (r: seq<PhaseRecord>)
    ensures |r| == |spans|
    ensures forall k :: 0 <= k < |spans| ==>
      r[k] == if atEnd then PhaseRecord(spans[k].phase, "phase_end", exec + spans[k].endMin * 60.0)
              else PhaseRecord(spans[k].phase, "phase_start", exec + spans[k].startMin * 60.0)
  {
    seq(|spans|, k requires 0 <= k < |spans| =>
      if atEnd then PhaseRecord(spans[k].phase, "phase_end", exec + spans[k].endMin * 60.0)
      else PhaseRecord(spans[k].phase, "phase_start", exec + spans[k].startMin * 60.0))
  }

  function EventTs(r: PhaseRecord): real
  {
    r.eventTs
  }

  function PhaseKey(r: PhaseRecord): (string, string)
  {
    (r.phase, r.event)
  }

  /** All phase starts, then all phase ends, in phase order. */
  function Unsorted(rows: seq<TemplateRow>, exec: real): seq<PhaseRecord>
  {
    var spans := Aggregate(rows);
    PhaseEvents(spans, false, exec) + PhaseEvents(spans, true, exec)
  }

  /** `_generate_phase_data`: all phase starts, then all phase ends, sorted
      by time. */
  function PhaseData(rows: seq<TemplateRow>, exec: real): seq<PhaseRecord>
  {
    SortBy(Unsorted(rows, exec), EventTs)
  }

  /** The start and end events of phase `p`. */
  function StartOf(rows: seq<TemplateRow>, p: string, exec: real): PhaseRecord
    requires InTemplate(rows, p)
  {
    PhaseRecord(p, "phase_start", exec + SpanOf(rows, p).startMin * 60.0)
  }

  function EndOf(rows: seq<TemplateRow>, p: string, exec: real): PhaseRecord
    requires InTemplate(rows, p)
  {
    PhaseRecord(p, "phase_end", exec + SpanOf(rows, p).endMin * 60.0)
  }

  /** A generator object after its constructor: the template after the
      `holds` step, the batch events and the phase events. */
  datatype Context = Context(template: Table, batchData: seq<BatchEvent>, phaseData: seq<PhaseRecord>)

  /** The constructor: the `holds` step, then the batch data (which can
      raise), then the phase data. */
  function NewContext(t: Table, holds: bool, recipe: string, batchId: nat, chromId: string, exec: real): Result<Context>
  {
    var tmpl := ApplyHolds(t, holds);
    match BatchData(tmpl.rows, recipe, batchId, chromId, exec)
    case Err(e) => Err(e)
    case Ok(b) => Ok(Context(tmpl, b, PhaseData(tmpl.rows, exec)))
  }

  // ---------------------------------------------------------------------

  /** The batch lasts from the template's first to its last minute after
      the execution time: two events, `batch_start` no later than
      `batch_end`, both stamped with the batch and column, and the template
      raises only when it is empty. */
  lemma BatchDataWindow(rows: seq<TemplateRow>, recipe: string, batchId: nat, chromId: string, exec: real)
    ensures BatchData(rows, recipe, batchId, chromId, exec).Err? <==> rows == []
    ensures rows == [] ==> BatchData(rows, recipe, batchId, chromId, exec) == Err(EmptyMin)
    ensures rows != [] ==>
      var b := BatchData(rows, recipe, batchId, chromId, exec).value;
      && |b| == 2 && b[0].event == "batch_start" && b[1].event == "batch_end"
      && (forall k :: 0 <= k < 2 ==> b[k].recipeName == recipe && b[k].batchId == batchId && b[k].chromId == chromId)
      && b[0].eventTs <= b[1].eventTs
      && (forall i :: 0 <= i < |rows| ==> b[0].eventTs <= exec + rows[i].timeMin * 60.0 <= b[1].eventTs)
      && (exists i :: 0 <= i < |rows| && b[0].eventTs == exec + rows[i].timeMin * 60.0)
      && (exists i :: 0 <= i < |rows| && b[1].eventTs == exec + rows[i].timeMin * 60.0)
  {
    if rows != [] {
      var ts := TimeMins(rows);
      var lo, hi := MinOf(ts), MaxOf(ts);
      var i :| 0 <= i < |ts| && ts[i] == lo;
      var j :| 0 <= j < |ts| && ts[j] == hi;
      assert exec + rows[i].timeMin * 60.0 == exec + lo * 60.0;
      assert exec + rows[j].timeMin * 60.0 == exec + hi * 60.0;
      forall k | 0 <= k < |rows| ensures exec + lo * 60.0 <= exec + rows[k].timeMin * 60.0 <= exec + hi * 60.0 {
        assert lo <= ts[k] <= hi;
      }
    }
  }

  /** The unsorted phase events: the `k`-th start, then the `k`-th end,
      of the `k`-th distinct phase. */
  lemma UnsortedStart(rows: seq<TemplateRow>, exec: real, k: nat)
    requires k < |PhaseNames(rows)|
    ensures |Unsorted(rows, exec)| == 2 * |PhaseNames(rows)|
    ensures InTemplate(rows, PhaseNames(rows)[k]) && Unsorted(rows, exec)[k] == StartOf(rows, PhaseNames(rows)[k], exec)
  {
    var spans := Aggregate(rows);
    var starts := PhaseEvents(spans, false, exec);
    assert (starts + PhaseEvents(spans, true, exec))[k] == starts[k];
  }

  lemma UnsortedEnd(rows: seq<TemplateRow>, exec: real, k: nat)
    requires k < |PhaseNames(rows)|
    ensures |Unsorted(rows, exec)| == 2 * |PhaseNames(rows)|
    ensures InTemplate(rows, PhaseNames(rows)[k])
    ensures Unsorted(rows, exec)[k + |PhaseNames(rows)|] == EndOf(rows, PhaseNames(rows)[k], exec)
  {
    var spans := Aggregate(rows);
    var starts, ends := PhaseEvents(spans, false, exec), PhaseEvents(spans, true, exec);
    assert (starts + ends)[k + |starts|] == ends[k];
  }

  /** Every unsorted event is the start or the end of a phase of the
      template. */
  lemma UnsortedAt(rows: seq<TemplateRow>, exec: real, j: nat)
    requires j < |Unsorted(rows, exec)|
    ensures InTemplate(rows, Unsorted(rows, exec)[j].phase)
    ensures Unsorted(rows, exec)[j] == StartOf(rows, Unsorted(rows, exec)[j].phase, exec)
            || Unsorted(rows, exec)[j] == EndOf(rows, Unsorted(rows, exec)[j].phase, exec)
  {
    var n := |PhaseNames(rows)|;
    if j < n {
      UnsortedStart(rows, exec, j);
    } else {
      UnsortedEnd(rows, exec, j - n);
    }
  }

  lemma UnsortedDistinct(rows: seq<TemplateRow>, exec: real)
    ensures DistinctBy(Unsorted(rows, exec), PhaseKey)
  {
    var all := Unsorted(rows, exec);
    var names := PhaseNames(rows);
    var n := |names|;
    forall i, j | 0 <= i < j < |all| ensures PhaseKey(all[i]) != PhaseKey(all[j]) {
      if j < n {
        UnsortedStart(rows, exec, i);
        UnsortedStart(rows, exec, j);
      } else if i < n {
        UnsortedStart(rows, exec, i);
        UnsortedEnd(rows, exec, j - n);
      } else {
        UnsortedEnd(rows, exec, i - n);
        UnsortedEnd(rows, exec, j - n);
      }
    }
  }

  /** The phase events are sorted by time, and no two of them are the same
      event of the same phase. */
  lemma PhaseDataSorted(rows: seq<TemplateRow>, exec: real)
    ensures var d := PhaseData(rows, exec);
      SortedBy(d, EventTs) && |d| == 2 * |PhaseNames(rows)| && DistinctBy(d, PhaseKey)
  {
    var all := Unsorted(rows, exec);
    SortBySorted(all, EventTs);
    UnsortedDistinct(rows, exec);
    SortByDistinct(all, EventTs, PhaseKey);
  }

  /** Every phase of the template starts and ends in the phase events, and
      it does not end before it starts. */
  lemma PhaseDataHas(rows: seq<TemplateRow>, exec: real, p: string)
    requires InTemplate(rows, p)
    ensures StartOf(rows, p, exec) in PhaseData(rows, exec) && EndOf(rows, p, exec) in PhaseData(rows, exec)
    ensures StartOf(rows, p, exec).eventTs <= EndOf(rows, p, exec).eventTs
  {
    StartIn(rows, exec, p);
    EndIn(rows, exec, p);
    assert SpanOf(rows, p).startMin <= SpanOf(rows, p).endMin;
  }

  lemma StartIn(rows: seq<TemplateRow>, exec: real, p: string)
    requires InTemplate(rows, p)
    ensures StartOf(rows, p, exec) in PhaseData(rows, exec)
  {
    var names := PhaseNames(rows);
    var k :| 0 <= k < |names| && names[k] == p;
    UnsortedStart(rows, exec, k);
    SortByHas(Unsorted(rows, exec), EventTs, StartOf(rows, p, exec));
  }

  lemma EndIn(rows: seq<TemplateRow>, exec: real, p: string)
    requires InTemplate(rows, p)
    ensures EndOf(rows, p, exec) in PhaseData(rows, exec)
  {
    var names := PhaseNames(rows);
    var k :| 0 <= k < |names| && names[k] == p;
    UnsortedEnd(rows, exec, k);
    SortByHas(Unsorted(rows, exec), EventTs, EndOf(rows, p, exec));
  }

  /** Every phase event is the start or the end of a phase of the
      template. */
  lemma PhaseDataOnly(rows: seq<TemplateRow>, exec: real, k: nat)
    requires k < |PhaseData(rows, exec)|
    ensures var r := PhaseData(rows, exec)[k];
      InTemplate(rows, r.phase) && (r == StartOf(rows, r.phase, exec) || r == EndOf(rows, r.phase, exec))
  {
    var all := Unsorted(rows, exec);
    var d := PhaseData(rows, exec);
    SortByHas(all, EventTs, d[k]);
    var j :| 0 <= j < |all| && all[j] == d[k];
    UnsortedAt(rows, exec, j);
  }

  /** The phase of the template's first row in time starts at that row:
      no row of its phase is earlier. */
  lemma FirstPhase(rows: seq<TemplateRow>) returns (p: string)
    requires rows != []
    ensures InTemplate(rows, p) && SpanOf(rows, p).startMin == MinOf(TimeMins(rows))
  {
    var ts := TimeMins(rows);
    var i :| 0 <= i < |ts| && ts[i] == MinOf(ts);
    p := rows[i].phase;
    assert InTemplate(rows, p);
    var a :| 0 <= a < |rows| && rows[a].phase == p && rows[a].timeMin == SpanOf(rows, p).startMin;
    assert ts[a] == rows[a].timeMin;
  }

  /** The phase of the template's last row in time ends at that row. */
  lemma LastPhase(rows: seq<TemplateRow>) returns (p: string)
    requires rows != []
    ensures InTemplate(rows, p) && SpanOf(rows, p).endMin == MaxOf(TimeMins(rows))
  {
    var ts := TimeMins(rows);
    var i :| 0 <= i < |ts| && ts[i] == MaxOf(ts);
    p := rows[i].phase;
    assert InTemplate(rows, p);
    var a :| 0 <= a < |rows| && rows[a].phase == p && rows[a].timeMin == SpanOf(rows, p).endMin;
    assert ts[a] == rows[a].timeMin;
  }

  /** The batch starts with the first phase to start: some `phase_start`
      event has the `batch_start` time. This is what lets the event
      producer queue the batch's start next to a phase event. */
  lemma BatchStartMatchesPhase(rows: seq<TemplateRow>, recipe: string, batchId: nat, chromId: string, exec: real)
    requires rows != []
    ensures var d := PhaseData(rows, exec);
      exists k :: 0 <= k < |d| && d[k].event == "phase_start"
                  && d[k].eventTs == BatchRows(rows, recipe, batchId, chromId, exec)[0].eventTs
  {
    var p := FirstPhase(rows);
    PhaseDataHas(rows, exec, p);
    EventAt(PhaseData(rows, exec), StartOf(rows, p, exec));
  }

  /** The batch ends with the last phase to end: some `phase_end` event has
      the `batch_end` time. */
  lemma BatchEndMatchesPhase(rows: seq<TemplateRow>, recipe: string, batchId: nat, chromId: string, exec: real)
    requires rows != []
    ensures var d := PhaseData(rows, exec);
      exists k :: 0 <= k < |d| && d[k].event == "phase_end"
                  && d[k].eventTs == BatchRows(rows, recipe, batchId, chromId, exec)[1].eventTs
  {
    var q := LastPhase(rows);
    PhaseDataHas(rows, exec, q);
    EventAt(PhaseData(rows, exec), EndOf(rows, q, exec));
  }

  lemma EventAt(d: seq<PhaseRecord>, r: PhaseRecord)
    requires r in d
    ensures exists k :: 0 <= k < |d| && d[k].event == r.event && d[k].eventTs == r.eventTs
  {
    var k :| 0 <= k < |d| && d[k] == r;
  }

  /** The constructor raises exactly when no template row is left after the
      `holds` step; otherwise the batch and phase events are those of the
      template it keeps. */
  lemma NewContextErrors(t: Table, holds: bool, recipe: string, batchId: nat, chromId: string, exec: real)
    ensures var tmpl := ApplyHolds(t, holds);
      && (NewContext(t, holds, recipe, batchId, chromId, exec).Err? <==> tmpl.rows == [])
      && (tmpl.rows == [] ==> NewContext(t, holds, recipe, batchId, chromId, exec) == Err(EmptyMin))
      && (tmpl.rows != [] ==>
            NewContext(t, holds, recipe, batchId, chromId, exec)
              == Ok(Context(tmpl, BatchRows(tmpl.rows, recipe, batchId, chromId, exec), PhaseData(tmpl.rows, exec))))
  {
  }

  // ---------------------------------------------------------------------

  /** `_generate_batch_data`: the loop over the two batch events. */
  method GenerateBatchData(rows: seq<TemplateRow>, recipe: string, batchId: nat, chromId: string, exec: real)
    returns (r: Result<seq<BatchEvent>>)
    ensures r == BatchData(rows, recipe, batchId, chromId, exec)
  {
    var events := ["batch_start", "batch_end"];
    var batch: seq<BatchEvent> := [];
    for k := 0 to 2
      invariant k > 0 ==> rows != []
      invariant k > 0 ==> batch == BatchRows(rows, recipe, batchId, chromId, exec)[..k]
      invariant k == 0 ==> batch == []
    {
      if rows == [] {
        return Err(EmptyMin);
      }
      var eventTs;
      if events[k] == "batch_start" {
        eventTs := exec + MinOf(TimeMins(rows)) * 60.0;
      } else {
        eventTs := exec + MaxOf(TimeMins(rows)) * 60.0;
      }
      batch := batch + [BatchEvent(recipe, batchId, chromId, events[k], eventTs)];
    }
    if rows == [] {
      return Err(EmptyMin);
    }
    assert batch == BatchRows(rows, recipe, batchId, chromId, exec);
    r := Ok(batch);
  }

  /** The constructor. */
  method NewBatchContext(t: Table, holds: bool, recipe: string, batchId: nat, chromId: string, exec: real)
    returns (r: Result<Context>)
    ensures r == NewContext(t, holds, recipe, batchId, chromId, exec)
  {
    var tmpl := ApplyHolds(t, holds);
    var batch := GenerateBatchData(tmpl.rows, recipe, batchId, chromId, exec);
    if batch.Err? {
      return Err(batch.error);
    }
    r := Ok(Context(tmpl, batch.value, PhaseData(tmpl.rows, exec)));
  }
}
