/** The per-phase summary both batch-context generators take from the
    template, `groupby("phase")` with the smallest and largest `time_min`
    of each phase, and the phase table of
    python/src/batch_context/batch_context_generator.py built from it. */
module PhaseTable {
  import opened Common
  import opened Template
  import opened Sorting

  /** Some row of the template belongs to phase `p`. */
  predicate InTemplate(rows: seq<TemplateRow>, p: string)
  {
    exists i :: 0 <= i < |rows| && rows[i].phase == p
  }

  /** The distinct phase names of the template, in order of first
      appearance. `groupby` lists its groups sorted by name instead; every
      table built from them is then sorted by time with a stable sort, so
      the two orders differ only among phases that start (or, for phase
      events, happen) at the same time. */
  function PhaseNames(rows: seq<TemplateRow>): (r: seq<string>)
    ensures NoDuplicates(r)
    ensures forall p :: p in r <==> InTemplate(rows, p)
  {
    var phases := seq(|rows|, i requires 0 <= i < |rows| => rows[i].phase);
    assert forall i :: 0 <= i < |rows| ==> phases[i] == rows[i].phase;
    Dedup(phases)
  }

  /** The `time_min` values of the rows of phase `p`, in order. */
  function TimesOf(rows: seq<TemplateRow>, p: string): (ts: seq<real>)
    ensures forall k :: 0 <= k < |ts| ==> exists i :: 0 <= i < |rows| && rows[i].phase == p && rows[i].timeMin == ts[k]
    ensures forall i :: 0 <= i < |rows| && rows[i].phase == p ==> rows[i].timeMin in ts
  {
    if rows == [] then []
    else
      var init := rows[..|rows| - 1];
      var last := rows[|rows| - 1];
      var prev := TimesOf(init, p);
      assert forall i :: 0 <= i < |init| ==> init[i] == rows[i];
      prev + (if last.phase == p then [last.timeMin] else [])
  }

  /** One phase with its first and last minute. */
  datatype PhaseSpan = PhaseSpan(phase: string, startMin: real, endMin: real)

  /** The `min` and `max` aggregate of one phase: the earliest and latest
      `time_min` among its rows, so the phase never ends before it starts. */
  function SpanOf(rows: seq<TemplateRow>, p: string): (s: PhaseSpan)
    requires InTemplate(rows, p)
    ensures s.phase == p && s.startMin <= s.endMin
    ensures exists i :: 0 <= i < |rows| && rows[i].phase == p && rows[i].timeMin == s.startMin
    ensures exists i :: 0 <= i < |rows| && rows[i].phase == p && rows[i].timeMin == s.endMin
    ensures forall i :: 0 <= i < |rows| && rows[i].phase == p ==> s.startMin <= rows[i].timeMin <= s.endMin
  {
    var ts := TimesOf(rows, p);
    var i :| 0 <= i < |rows| && rows[i].phase == p;
    assert rows[i].timeMin in ts;
    var lo, hi := MinOf(ts), MaxOf(ts);
    assert exists k :: 0 <= k < |ts| && ts[k] == lo;
    assert exists k :: 0 <= k < |ts| && ts[k] == hi;
    PhaseSpan(p, lo, hi)
  }

  /** `groupby("phase")["time_min"].agg(["min", "max"])`: one span per
      distinct phase, listed in the order of `PhaseNames` rather than sorted
      by name (see there for why only the order of ties is affected). */
  function Aggregate(rows: seq<TemplateRow>): (r: seq<PhaseSpan>)
    ensures |r| == |PhaseNames(rows)|
    ensures forall k :: 0 <= k < |r| ==> PhaseNames(rows)[k] in PhaseNames(rows) && r[k] == SpanOf(rows, PhaseNames(rows)[k])
  {
    var names := PhaseNames(rows);
    assert forall k :: 0 <= k < |names| ==> names[k] in names;
    seq(|names|, k requires 0 <= k < |names| => SpanOf(rows, names[k]))
  }

  // ---------------------------------------------------------------------
  // python/src/batch_context/batch_context_generator.py

  /** One row of the phase table: the span in minutes and in seconds. */
  datatype PhaseRow = PhaseRow(phase: string, startMin: real, endMin: real, startSec: real, endSec: real)

  /** The aggregated table with the two seconds columns added. */
  function Grouped(rows: seq<TemplateRow>): (g: seq<PhaseRow>)
    ensures |g| == |PhaseNames(rows)|
  {
    var spans := Aggregate(rows);
    seq(|spans|, k requires 0 <= k < |spans| =>
      PhaseRow(spans[k].phase, spans[k].startMin, spans[k].endMin, spans[k].startMin * 60.0, spans[k].endMin * 60.0))
  }

  function StartSec(r: PhaseRow): real
  {
    r.startSec
  }

  function PhaseOf(r: PhaseRow): string
  {
    r.phase
  }

  /** `_generate_dataset`: the grouped table sorted by `phase_start_sec`. */
  function PhaseDataset(rows: seq<TemplateRow>): seq<PhaseRow>
  {
    SortBy(Grouped(rows), StartSec)
  }

  /** The generator object: its (possibly filtered) template and the phase
      table its constructor computes. */
  datatype PhaseGenerator = PhaseGenerator(template: Table, phaseData: seq<PhaseRow>)

  /** The constructor: the `holds` step, then `_generate_dataset`. */
  function NewPhaseGenerator(t: Table, holds: bool): (g: PhaseGenerator)
    ensures g.template == ApplyHolds(t, holds)
  {
    var tmpl := ApplyHolds(t, holds);
    PhaseGenerator(tmpl, PhaseDataset(tmpl.rows))
  }

  /** Every row of the grouped table spans one phase from its first to its
      last minute, in minutes and in seconds. */
  lemma GroupedRows(rows: seq<TemplateRow>, k: nat)
    requires k < |Grouped(rows)|
    ensures var g := Grouped(rows)[k];
      && g.phase == PhaseNames(rows)[k]
      && g.startSec == g.startMin * 60.0 && g.endSec == g.endMin * 60.0
      && g.startMin <= g.endMin && g.startSec <= g.endSec
      && (forall i :: 0 <= i < |rows| && rows[i].phase == g.phase ==> g.startMin <= rows[i].timeMin <= g.endMin)
      && (exists i :: 0 <= i < |rows| && rows[i].phase == g.phase && rows[i].timeMin == g.startMin)
      && (exists i :: 0 <= i < |rows| && rows[i].phase == g.phase && rows[i].timeMin == g.endMin)
  {
    var s := Aggregate(rows)[k];
    assert Grouped(rows)[k] == PhaseRow(s.phase, s.startMin, s.endMin, s.startMin * 60.0, s.endMin * 60.0);
  }

  /** The phase table has exactly one row per distinct phase of the
      template, sorted by start; its rows are those of the grouped table. */
  lemma PhaseDatasetProperties(rows: seq<TemplateRow>)
    ensures var d := PhaseDataset(rows);
      && SortedBy(d, StartSec)
      && multiset(d) == multiset(Grouped(rows))
      && DistinctBy(d, PhaseOf)
      && |d| == |PhaseNames(rows)|
      && (forall k :: 0 <= k < |d| ==> d[k] in Grouped(rows))
  {
    var g := Grouped(rows);
    var d := PhaseDataset(rows);
    SortBySorted(g, StartSec);
    GroupedDistinct(rows);
    SortByDistinct(g, StartSec, PhaseOf);
    forall k | 0 <= k < |d| ensures d[k] in g {
      SortByHas(g, StartSec, d[k]);
    }
  }

  lemma GroupedDistinct(rows: seq<TemplateRow>)
    ensures DistinctBy(Grouped(rows), PhaseOf)
  {
    var g := Grouped(rows);
    forall k | 0 <= k < |g| ensures g[k].phase == PhaseNames(rows)[k] {
      GroupedRows(rows, k);
    }
  }

  /** Every phase of the template has its row in the phase table. */
  lemma PhaseDatasetCovers(rows: seq<TemplateRow>, p: string)
    ensures InTemplate(rows, p) <==> exists k :: 0 <= k < |PhaseDataset(rows)| && PhaseDataset(rows)[k].phase == p
  {
    var g := Grouped(rows);
    var d := PhaseDataset(rows);
    var names := PhaseNames(rows);
    if InTemplate(rows, p) {
      var k :| 0 <= k < |names| && names[k] == p;
      GroupedRows(rows, k);
      SortByHas(g, StartSec, g[k]);
    }
    if k :| 0 <= k < |d| && d[k].phase == p {
      PhaseDatasetOnly(rows, k);
    }
  }

  /** Every row of the phase table is a phase of the template. */
  lemma PhaseDatasetOnly(rows: seq<TemplateRow>, k: nat)
    requires k < |PhaseDataset(rows)|
    ensures InTemplate(rows, PhaseDataset(rows)[k].phase)
  {
    var g := Grouped(rows);
    var x := PhaseDataset(rows)[k];
    SortByHas(g, StartSec, x);
    var j :| 0 <= j < |g| && g[j] == x;
    GroupedRows(rows, j);
    assert g[j].phase in PhaseNames(rows);
  }
}
