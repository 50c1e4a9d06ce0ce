/** The times of a batch's two events, as `generate_batch_context_data`
    (python_data_generation/src/batch_context/batch_context_generator.py)
    derives them from the phase rows. */
module BatchTiming {
  import opened Template
  import opened BatchContextGenerator

  /** The batch starts with the first phase to start and ends with the
      last to end, so each of its two events has the time of a phase event. */
  lemma BatchRowsTimed(rows: seq<TemplateRow>, recipe: string, batchId: nat, chromId: string, exec: real)
    requires rows != []
    ensures forall b :: b in BatchRows(rows, recipe, batchId, chromId, exec) ==>
      exists e :: e in PhaseData(rows, exec) && e.eventTs == b.eventTs
  {
    BatchStartMatchesPhase(rows, recipe, batchId, chromId, exec);
    BatchEndMatchesPhase(rows, recipe, batchId, chromId, exec);
    var x := BatchRows(rows, recipe, batchId, chromId, exec);
    var d := PhaseData(rows, exec);
    var k0 :| 0 <= k0 < |d| && d[k0].event == "phase_start" && d[k0].eventTs == x[0].eventTs;
    var k1 :| 0 <= k1 < |d| && d[k1].event == "phase_end" && d[k1].eventTs == x[1].eventTs;
    PairTimed(x, d, k0, k1);
  }

  /** Each of two events has the time of a record. */
  lemma PairTimed(x: seq<BatchEvent>, d: seq<PhaseRecord>, k0: nat, k1: nat)
    requires |x| == 2 && k0 < |d| && k1 < |d|
    requires d[k0].eventTs == x[0].eventTs && d[k1].eventTs == x[1].eventTs
    ensures forall b :: b in x ==> exists e :: e in d && e.eventTs == b.eventTs
  {
    forall b | b in x
      ensures exists e :: e in d && e.eventTs == b.eventTs
    {
      if b == x[0] {
        assert d[k0] in d;
      } else {
        assert d[k1] in d;
      }
    }
  }
}
