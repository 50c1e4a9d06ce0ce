/** `generate_batch_context_events` and the object paths of
    `send_event_to_gcs` (python_data_generation/src/batch_context/main.py).
    For every run, the phase-event generators of that run, one per column in
    dictionary order, are pulled round robin. Each pulled phase event is
    preceded on the batch queue by the batch events of the same time, and is
    stamped with its batch id before it goes on the phase queue. After each
    pass the loop looks up the phase row that follows the last event pulled
    and sleeps until it; when there is none, the `IndexError` ends the run.
    One "EOF" closes each queue after the last run.

    Generators advance in lockstep (each yields once per pass while it has
    rows), so the generator of column `c` yields its `p`-th row in pass `p`. */
module BatchEvents {
  import opened Common
  import opened Queues
  import opened Multiplex
  import opened Template
  import opened BatchContextGenerator
  import opened BatchContext
  import BatchTiming

  /** A phase record with `batch_id` added. */
  datatype PhaseEvent = PhaseEvent(phase: string, event: string, eventTs: real, batchId: nat)

  /** One `put`: a frame of batch events on the batch queue, or one phase
      event on the phase queue. */
  datatype Put = ToBatch(rows: seq<BatchEvent>) | ToPhase(event: PhaseEvent)

  /** `phase_data` and the time of the last pulled phase event, from which
      `cur_phase_idx` is computed. Both stay bound from one pass, and one
      run, to the next. */
  datatype Pulled = Pulled(data: seq<PhaseRecord>, ts: real)

  /** What the loops have done so far: the puts on both queues in order, the
      sleep lengths, and the last pull. */
  datatype Out = Out(puts: seq<Put>, sleeps: seq<real>, last: Option<Pulled>)

  const Start := Out([], [], None)

  /** How a loop ends: normally, with its result, or with an exception,
      keeping the puts and sleeps made before it. */
  datatype Ended<T> = Done(value: T) | Raised(out: Out, error: Error)

  /** What has been done when a loop ends, either way. */
  function Reached(r: Ended<Out>): Out
  {
    match r
    case Done(o) => o
    case Raised(o, _) => o
  }

  /** What `generate_batch_context_events` leaves behind: the histories of
      the batch queue and of the phase queue, and the exception that ended
      it, if any. */
  datatype Histories = Histories(batch: seq<Msg<seq<BatchEvent>>>, phase: seq<Msg<PhaseEvent>>, raised: Option<Error>)

  /** The history of the batch queue. */
  function BatchQueue(puts: seq<Put>): seq<seq<BatchEvent>>
  {
    if puts == [] then []
    else BatchQueue(puts[..|puts| - 1]) + (if puts[|puts| - 1].ToBatch? then [puts[|puts| - 1].rows] else [])
  }

  /** The history of the phase queue. */
  function PhaseQueue(puts: seq<Put>): seq<PhaseEvent>
  {
    if puts == [] then []
    else PhaseQueue(puts[..|puts| - 1]) + (if puts[|puts| - 1].ToPhase? then [puts[|puts| - 1].event] else [])
  }

  lemma {:induction false} PhaseQueueAppend(a: seq<Put>, b: seq<Put>)
    ensures PhaseQueue(a + b) == PhaseQueue(a) + PhaseQueue(b)
    decreases |b|
  {
    if b != [] {
      var b' := b[..|b| - 1];
      assert (a + b)[..|a + b| - 1] == a + b';
      PhaseQueueAppend(a, b');
    } else {
      assert a + b == a;
    }
  }

  lemma {:induction false} BatchQueueAppend(a: seq<Put>, b: seq<Put>)
    ensures BatchQueue(a + b) == BatchQueue(a) + BatchQueue(b)
    decreases |b|
  {
    if b != [] {
      var b' := b[..|b| - 1];
      assert (a + b)[..|a + b| - 1] == a + b';
      BatchQueueAppend(a, b');
    } else {
      assert a + b == a;
    }
  }

  /** The frames that are put: the loop skips an empty one. */
  function NonEmpty(frames: seq<seq<BatchEvent>>): seq<seq<BatchEvent>>
  {
    if frames == [] then []
    else NonEmpty(frames[..|frames| - 1]) + (if frames[|frames| - 1] != [] then [frames[|frames| - 1]] else [])
  }

  lemma {:induction false} NonEmptyAppend(a: seq<seq<BatchEvent>>, b: seq<seq<BatchEvent>>)
    ensures NonEmpty(a + b) == NonEmpty(a) + NonEmpty(b)
    decreases |b|
  {
    if b != [] {
      var b' := b[..|b| - 1];
      assert (a + b)[..|a + b| - 1] == a + b';
      NonEmptyAppend(a, b');
    } else {
      assert a + b == a;
    }
  }

  /** A frame with a row is kept. */
  lemma {:induction false} NonEmptyHas(frames: seq<seq<BatchEvent>>, f: seq<BatchEvent>)
    requires f in frames && f != []
    ensures f in NonEmpty(frames)
    decreases |frames|
  {
    var init := frames[..|frames| - 1];
    if f in init {
      NonEmptyHas(init, f);
    } else {
      assert frames == init + [frames[|frames| - 1]];
    }
  }

  // ---------------------------------------------------------------------
  // The specification of the loops

  /** The list `active_generators` of run `run`: the phase-event generator
      of that run of every column, in key order; `gen_list[run]` raises
      when a column has fewer generators. */
  function Active(s: BatchSetup, run: nat, n: nat): (r: Result<seq<(string, seq<PhaseRecord>)>>)
    requires n <= |s.keys|
    ensures r.Ok? ==> |r.value| == n && forall c :: 0 <= c < n ==> r.value[c].0 == s.keys[c]
  {
    if n == 0 then Ok([])
    else
      match Active(s, run, n - 1)
      case Err(e) => Err(e)
      case Ok(act) =>
        var col := s.keys[n - 1];
        if col !in s.generators then Err(KeyError(col))
        else if |s.generators[col]| <= run then Err(IndexError)
        else Ok(act + [(col, s.generators[col][run])])
  }

  /** `batch_context[col_key][run]` */
  function ContextAt(s: BatchSetup, col: string, run: nat): Result<Context>
  {
    if col !in s.contexts then Err(KeyError(col))
    else if |s.contexts[col]| <= run then Err(IndexError)
    else Ok(s.contexts[col][run])
  }

  /** `batch_data[batch_data["event_ts"] == ts]`: the batch events at time
      `ts`, in order. */
  function AtTime(rows: seq<BatchEvent>, ts: real): (r: seq<BatchEvent>)
    ensures forall b :: b in r <==> b in rows && b.eventTs == ts
  {
    if rows == [] then []
    else AtTime(rows[..|rows| - 1], ts) + (if rows[|rows| - 1].eventTs == ts then [rows[|rows| - 1]] else [])
  }

  /** `phase_event["batch_id"] = ...` */
  function Stamp(e: PhaseRecord, batchId: nat): PhaseEvent
  {
    PhaseEvent(e.phase, e.event, e.eventTs, batchId)
  }

  /** Pulling phase event `e` from the generator of column `col`: the batch
      events of the same time go on the batch queue when there are any,
      then the stamped phase event on the phase queue. Reading
      `batch_data["batch_id"][0]` raises on an empty frame. */
  function Pull(s: BatchSetup, run: nat, col: string, e: PhaseRecord, out: Out): Result<Out>
  {
    match ContextAt(s, col, run)
    case Err(err) => Err(err)
    case Ok(ctx) =>
      if ctx.batchData == [] then Err(KeyError("0"))
      else
        var rows := AtTime(ctx.batchData, e.eventTs);
        Ok(Out(out.puts + PullPuts(rows, Stamp(e, ctx.batchData[0].batchId)), out.sleeps, Some(Pulled(ctx.phaseData, e.eventTs))))
  }

  /** Pass `p` over the first `c` active generators, and whether any of
      them yielded (`streaming`). */
  function PassPrefix(s: BatchSetup, run: nat, act: seq<(string, seq<PhaseRecord>)>, p: nat, c: nat, out: Out)
    : (r: Ended<(Out, bool)>)
    requires c <= |act|
    ensures r.Done? && r.value.1 ==> exists d :: 0 <= d < c && p < |act[d].1|
  {
    if c == 0 then Done((out, false))
    else
      match PassPrefix(s, run, act, p, c - 1, out)
      case Raised(o, e) => Raised(o, e)
      case Done((o, yielded)) =>
        if p < |act[c - 1].1| then
          match Pull(s, run, act[c - 1].0, act[c - 1].1[p], o)
          case Err(e) => Raised(o, e)
          case Ok(o') => Done((o', true))
        else Done((o, yielded))
  }

  /** The first row of `data` at time `ts` (`cur_phase_idx[0]`). */
  function FirstAt(data: seq<PhaseRecord>, ts: real): (r: Option<nat>)
    ensures r.Some? ==> r.value < |data| && data[r.value].eventTs == ts
                        && forall j :: 0 <= j < r.value ==> data[j].eventTs != ts
    ensures r.None? ==> forall j :: 0 <= j < |data| ==> data[j].eventTs != ts
  {
    if data == [] then None
    else if data[0].eventTs == ts then Some(0)
    else match FirstAt(data[1..], ts)
      case None => None
      case Some(i) => Some(i + 1)
  }

  /** The `try` after a pass: `None` when the row after the last pulled one
      does not exist (the `IndexError` that breaks the loop), else the
      sleep length. The variables are unbound if nothing was ever pulled,
      a zero rate factor divides by zero, and `time.sleep` refuses a
      negative length. */
  function Pause(last: Option<Pulled>, factor: real): (r: Result<Option<real>>)
    ensures r.Ok? && r.value.Some? ==> 0.0 <= r.value.value
  {
    match last
    case None => Err(UnboundLocalError("phase_data"))
    case Some(pulled) =>
      match FirstAt(pulled.data, pulled.ts)
      case None => Ok(None)
      case Some(i) =>
        if i + 1 >= |pulled.data| then Ok(None)
        else if factor == 0.0 then Err(ZeroDivisionError)
        else
          var delay := (pulled.data[i + 1].eventTs - pulled.data[i].eventTs) / factor;
          if delay < 0.0 then Err(SleepError) else Ok(Some(delay))
  }

  /** The `while streaming` loop of one run, from pass `p` on. */
  function RunLoop(s: BatchSetup, run: nat, act: seq<(string, seq<PhaseRecord>)>, p: nat, out: Out, factor: real)
    : Ended<Out>
    decreases MaxLen(Sequences(act)) - p
  {
    match PassPrefix(s, run, act, p, |act|, out)
    case Raised(o, e) => Raised(o, e)
    case Done((o, streaming)) =>
      match Pause(o.last, factor)
      case Err(e) => Raised(o, e)
      case Ok(None) => Done(o)
      case Ok(Some(d)) =>
        var o' := o.(sleeps := o.sleeps + [d]);
        if !streaming then Done(o')
        else
          assert p < MaxLen(Sequences(act)) by {
            var c :| 0 <= c < |act| && p < |act[c].1|;
            assert Sequences(act)[c] == act[c].1;
          }
          RunLoop(s, run, act, p + 1, o', factor)
  }

  /** The runs from `run` on, each followed by the batch delay. */
  function Runs(s: BatchSetup, runs: nat, run: nat, out: Out, factor: real, delay: real): Ended<Out>
    decreases runs - run
  {
    if run >= runs then Done(out)
    else
      match Active(s, run, |s.keys|)
      case Err(e) => Raised(out, e)
      case Ok(act) =>
        match RunLoop(s, run, act, 0, out, factor)
        case Raised(o, e) => Raised(o, e)
        case Done(o) =>
          if delay < 0.0 then Raised(o, SleepError)
          else Runs(s, runs, run + 1, o.(sleeps := o.sleeps + [delay]), factor, delay)
  }

  /** `generate_batch_context_events`: the histories of the batch queue and
      of the phase queue. When the loops end normally, each is closed by
      exactly one "EOF"; when they raise, the queues keep what was put
      before the exception, and no "EOF" is put. */
  function Generate(s: BatchSetup, runs: nat, factor: real, delay: real): (r: Histories)
    ensures forall i :: 0 <= i < |r.batch| ==> (r.batch[i].Eof? <==> r.raised.None? && i == |r.batch| - 1)
    ensures forall i :: 0 <= i < |r.phase| ==> (r.phase[i].Eof? <==> r.raised.None? && i == |r.phase| - 1)
    ensures r.raised.None? ==> |r.batch| > 0 && |r.phase| > 0
  {
    match Runs(s, runs, 0, Start, factor, delay)
    case Raised(o, e) => Histories(Items(BatchQueue(o.puts)), Items(PhaseQueue(o.puts)), Some(e))
    case Done(o) => Histories(Items(BatchQueue(o.puts)) + [Eof], Items(PhaseQueue(o.puts)) + [Eof], None)
  }

  // ---------------------------------------------------------------------
  // Batch events come right before the phase event of the same time

  /** Every frame on the batch queue is non-empty, and is put right before a
      phase event of the same time as each of its rows. */
  ghost predicate BatchBeforePhase(puts: seq<Put>)
  {
    forall i :: 0 <= i < |puts| && puts[i].ToBatch? ==>
      && puts[i].rows != []
      && i + 1 < |puts| && puts[i + 1].ToPhase?
      && forall b :: b in puts[i].rows ==> b.eventTs == puts[i + 1].event.eventTs
  }

  lemma OrderedAppend(a: seq<Put>, b: seq<Put>)
    requires BatchBeforePhase(a) && BatchBeforePhase(b)
    ensures BatchBeforePhase(a + b)
  {
    forall i | 0 <= i < |a + b| && (a + b)[i].ToBatch?
      ensures (a + b)[i].rows != [] && i + 1 < |a + b| && (a + b)[i + 1].ToPhase?
      ensures forall x :: x in (a + b)[i].rows ==> x.eventTs == (a + b)[i + 1].event.eventTs
    {
      if i < |a| {
        assert (a + b)[i] == a[i] && (a + b)[i + 1] == a[i + 1];
      } else {
        assert (a + b)[i] == b[i - |a|] && (a + b)[i + 1] == b[i + 1 - |a|];
      }
    }
  }

  /** What one pull puts: the batch events of the pulled time, if any, then
      the phase event. */
  function PullPuts(rows: seq<BatchEvent>, e: PhaseEvent): seq<Put>
  {
    (if rows == [] then [] else [ToBatch(rows)]) + [ToPhase(e)]
  }

  lemma PullPutsOrdered(rows: seq<BatchEvent>, e: PhaseEvent)
    requires forall b :: b in rows ==> b.eventTs == e.eventTs
    ensures BatchBeforePhase(PullPuts(rows, e))
    ensures PhaseQueue(PullPuts(rows, e)) == [e]
    ensures BatchQueue(PullPuts(rows, e)) == NonEmpty([rows])
  {
    var added := PullPuts(rows, e);
    assert [rows][..0] == [];
    if rows != [] {
      assert added == [ToBatch(rows), ToPhase(e)];
      assert added[..1] == [ToBatch(rows)] && added[..1][..0] == [];
      assert PhaseQueue(added[..1]) == [];
      assert BatchQueue(added[..1]) == [rows];
    } else {
      assert added[..0] == [];
    }
  }

  /** A pull keeps the order, and the phase event it queues carries the
      batch id of the column's context in that run and the pulled row's
      phase, event and time. */
  lemma PullKeepsOrder(s: BatchSetup, run: nat, col: string, e: PhaseRecord, out: Out)
    requires Pull(s, run, col, e, out).Ok?
    ensures var o := Pull(s, run, col, e, out).value;
      && (BatchBeforePhase(out.puts) ==> BatchBeforePhase(o.puts))
      && PhaseQueue(o.puts) == PhaseQueue(out.puts) + [Stamp(e, BatchIdOf(s, col, run))]
      && BatchQueue(o.puts) == BatchQueue(out.puts) + NonEmpty([FrameOf(s, col, run, e)])
  {
    var ctx := ContextAt(s, col, run).value;
    var rows := AtTime(ctx.batchData, e.eventTs);
    var ev := Stamp(e, ctx.batchData[0].batchId);
    PullPutsOrdered(rows, ev);
    if BatchBeforePhase(out.puts) {
      OrderedAppend(out.puts, PullPuts(rows, ev));
    }
    PhaseQueueAppend(out.puts, PullPuts(rows, ev));
    BatchQueueAppend(out.puts, PullPuts(rows, ev));
  }

  /** The batch id stamped on a phase event of column `col` in run `run`. */
  function BatchIdOf(s: BatchSetup, col: string, run: nat): nat
  {
    match ContextAt(s, col, run)
    case Ok(ctx) => if ctx.batchData != [] then ctx.batchData[0].batchId else 0
    case Err(_) => 0
  }

  /** How the loop stamps the phase events of run `run`. */
  function StampOf(s: BatchSetup, run: nat): (string, PhaseRecord) -> PhaseEvent
  {
    (col: string, e: PhaseRecord) => Stamp(e, BatchIdOf(s, col, run))
  }

  /** The batch events a pull of phase event `e` of column `col` finds in
      run `run`: those of the column's context at the event's time. */
  function FrameOf(s: BatchSetup, col: string, run: nat, e: PhaseRecord): seq<BatchEvent>
  {
    match ContextAt(s, col, run)
    case Ok(ctx) => AtTime(ctx.batchData, e.eventTs)
    case Err(_) => []
  }

  /** How the loop frames the batch events of run `run`. */
  function FramesOf(s: BatchSetup, run: nat): (string, PhaseRecord) -> seq<BatchEvent>
  {
    (col: string, e: PhaseRecord) => FrameOf(s, col, run, e)
  }

  /** A pass keeps the order, queues on the phase queue exactly what the
      round-robin pass yields, stamped, and reports whether it yielded. */
  lemma {:induction false} PassPuts(s: BatchSetup, run: nat, act: seq<(string, seq<PhaseRecord>)>, p: nat, c: nat, out: Out)
    requires c <= |act| && PassPrefix(s, run, act, p, c, out).Done?
    ensures var (o, yielded) := PassPrefix(s, run, act, p, c, out).value;
      && (BatchBeforePhase(out.puts) ==> BatchBeforePhase(o.puts))
      && PhaseQueue(o.puts) == PhaseQueue(out.puts) + PassOutput(act, StampOf(s, run), p, c)
      && (yielded <==> PassOutput(act, StampOf(s, run), p, c) != [])
      && (PassOutput(act, StampOf(s, run), p, c) == [] ==> o == out)
  {
    if c > 0 {
      PassPuts(s, run, act, p, c - 1, out);
      var o := PassPrefix(s, run, act, p, c - 1, out).value.0;
      if p < |act[c - 1].1| {
        var col, e := act[c - 1].0, act[c - 1].1[p];
        var o' := Pull(s, run, col, e, o).value;
        assert PassPrefix(s, run, act, p, c, out).value == (o', true);
        assert && (BatchBeforePhase(o.puts) ==> BatchBeforePhase(o'.puts))
               && PhaseQueue(o'.puts) == PhaseQueue(o.puts) + [StampOf(s, run)(col, e)] by {
          PullKeepsOrder(s, run, col, e, o);
        }
      }
    }
  }

  /** ... and on the batch queue the non-empty frames of the same pulls. */
  lemma {:induction false} PassFrames(s: BatchSetup, run: nat, act: seq<(string, seq<PhaseRecord>)>, p: nat, c: nat, out: Out)
    requires c <= |act| && PassPrefix(s, run, act, p, c, out).Done?
    ensures BatchQueue(PassPrefix(s, run, act, p, c, out).value.0.puts)
            == BatchQueue(out.puts) + NonEmpty(PassOutput(act, FramesOf(s, run), p, c))
  {
    if c > 0 {
      PassFrames(s, run, act, p, c - 1, out);
      var o := PassPrefix(s, run, act, p, c - 1, out).value.0;
      var frames := PassOutput(act, FramesOf(s, run), p, c - 1);
      if p < |act[c - 1].1| {
        var e := act[c - 1].1[p];
        PullKeepsOrder(s, run, act[c - 1].0, e, o);
        NonEmptyAppend(frames, [FrameOf(s, act[c - 1].0, run, e)]);
      } else {
        assert frames + [] == frames;
      }
    }
  }

  /** A pass that raises keeps what it put before the exception: the order
      holds, and the phase queue has gained a prefix of the pass. */
  lemma {:induction false} PassRaisedPuts(s: BatchSetup, run: nat, act: seq<(string, seq<PhaseRecord>)>, p: nat, c: nat, out: Out)
    requires c <= |act| && PassPrefix(s, run, act, p, c, out).Raised?
    ensures var o := PassPrefix(s, run, act, p, c, out).out;
      && (BatchBeforePhase(out.puts) ==> BatchBeforePhase(o.puts))
      && PhaseQueue(out.puts) <= PhaseQueue(o.puts) <= PhaseQueue(out.puts) + PassOutput(act, StampOf(s, run), p, c)
  {
    var before := PassPrefix(s, run, act, p, c - 1, out);
    var pass := PassOutput(act, StampOf(s, run), p, c - 1);
    if before.Raised? {
      PassRaisedPuts(s, run, act, p, c - 1, out);
    } else {
      PassPuts(s, run, act, p, c - 1, out);
    }
    assert PhaseQueue(out.puts) + pass <= PhaseQueue(out.puts) + PassOutput(act, StampOf(s, run), p, c);
  }

  /** Where the run ends: a pull by the last column that yields in pass
      `p` leaves its phase data and time behind. */
  lemma LastPulledBy(s: BatchSetup, run: nat, act: seq<(string, seq<PhaseRecord>)>, p: nat, out: Out)
    requires |act| > 0 && p < |act[|act| - 1].1|
    requires PassPrefix(s, run, act, p, |act|, out).Done?
    ensures var col := act[|act| - 1].0;
      && ContextAt(s, col, run).Ok?
      && PassPrefix(s, run, act, p, |act|, out).value.0.last
         == Some(Pulled(ContextAt(s, col, run).value.phaseData, act[|act| - 1].1[p].eventTs))
  {
  }

  // ---------------------------------------------------------------------
  // What a run emits

  /** The round robin over the generators from pass `p` on, each record
      turned into what the loop queues for it. */
  function Stamped<U>(act: seq<(string, seq<PhaseRecord>)>, stamp: (string, PhaseRecord) -> U, p: nat): seq<U>
  {
    PassesFromTagged(Sequences(act), p);
    Emit(act, stamp, PassesFrom(Sequences(act), p))
  }

  /** Pass `p`, then the passes after it; nothing once a pass is empty. */
  lemma PassThenRest<U>(act: seq<(string, seq<PhaseRecord>)>, stamp: (string, PhaseRecord) -> U, p: nat)
    ensures Stamped(act, stamp, p)
            == PassOutput(act, stamp, p, |act|) + (if PassOutput(act, stamp, p, |act|) == [] then [] else Stamped(act, stamp, p + 1))
  {
    var cols := Sequences(act);
    PassOutputEmit(act, stamp, p, |act|);
    PassesFromUnfold(cols, p);
    if Pass(cols, p) != [] {
      PassesFromTagged(cols, p + 1);
      PassTagged(cols, p, |cols|);
      EmitAppend(act, stamp, Pass(cols, p), PassesFrom(cols, p + 1));
    }
  }

  lemma PrefixSteps<T>(q0: seq<T>, pass: seq<T>, r: seq<T>, rest: seq<T>)
    requires q0 + pass <= r && r <= q0 + pass + rest
    ensures q0 <= r && r <= q0 + (pass + rest)
  {
    assert q0 + pass + rest == q0 + (pass + rest);
    assert r[..|q0|] == (q0 + pass)[..|q0|];
  }

  /** A pass that raises ends the run with a prefix of what is left of the
      round robin. */
  lemma PassRaisedPrefix(s: BatchSetup, run: nat, act: seq<(string, seq<PhaseRecord>)>, p: nat, out: Out, factor: real)
    requires BatchBeforePhase(out.puts) && PassPrefix(s, run, act, p, |act|, out).Raised?
    ensures var o := Reached(RunLoop(s, run, act, p, out, factor));
      && BatchBeforePhase(o.puts)
      && PhaseQueue(out.puts) <= PhaseQueue(o.puts)
      && PhaseQueue(o.puts) <= PhaseQueue(out.puts) + Stamped(act, StampOf(s, run), p)
  {
    var stamp := StampOf(s, run);
    var q0, pass, rest := PhaseQueue(out.puts), PassOutput(act, stamp, p, |act|), Stamped(act, stamp, p + 1);
    var r := PassPrefix(s, run, act, p, |act|, out);
    assert Reached(RunLoop(s, run, act, p, out, factor)) == r.out;
    assert BatchBeforePhase(r.out.puts) && q0 <= PhaseQueue(r.out.puts) <= q0 + pass by {
      PassRaisedPuts(s, run, act, p, |act|, out);
    }
    assert pass <= Stamped(act, stamp, p) by {
      PassThenRest(act, stamp, p);
    }
    PrefixWithin(q0, PhaseQueue(r.out.puts), pass, Stamped(act, stamp, p));
  }

  lemma PrefixWithin<T>(q0: seq<T>, x: seq<T>, pass: seq<T>, all: seq<T>)
    requires q0 <= x <= q0 + pass && pass <= all
    ensures q0 <= x <= q0 + all
  {
    assert (q0 + all)[..|q0 + pass|] == q0 + pass;
  }

  /** A run emits on the phase queue a prefix of the stamped round robin
      over its generators: whatever the `IndexError` or an exception cuts
      off is lost, and nothing comes out of order. The batch-before-phase
      order holds, however the run ends. */
  lemma {:induction false} RunEmitsPrefix(s: BatchSetup, run: nat, act: seq<(string, seq<PhaseRecord>)>, p: nat, out: Out, factor: real)
    requires BatchBeforePhase(out.puts)
    ensures var o := Reached(RunLoop(s, run, act, p, out, factor));
      && BatchBeforePhase(o.puts)
      && PhaseQueue(out.puts) <= PhaseQueue(o.puts)
      && PhaseQueue(o.puts) <= PhaseQueue(out.puts) + Stamped(act, StampOf(s, run), p)
    decreases MaxLen(Sequences(act)) - p
  {
    var stamp := StampOf(s, run);
    var q0, pass, rest := PhaseQueue(out.puts), PassOutput(act, stamp, p, |act|), Stamped(act, stamp, p + 1);
    assert Stamped(act, stamp, p) == pass + (if pass == [] then [] else rest) by {
      PassThenRest(act, stamp, p);
    }
    var r := PassPrefix(s, run, act, p, |act|, out);
    var all := Stamped(act, stamp, p);
    if r.Raised? {
      PassRaisedPrefix(s, run, act, p, out, factor);
      return;
    }
    var (o, streaming) := r.value;
    assert BatchBeforePhase(o.puts) && PhaseQueue(o.puts) == q0 + pass && (streaming <==> pass != []) by {
      PassPuts(s, run, act, p, |act|, out);
    }
    var d := Pause(o.last, factor);
    if d.Ok? && d.value.Some? && streaming {
      var o' := o.(sleeps := o.sleeps + [d.value.value]);
      var last := Reached(RunLoop(s, run, act, p + 1, o', factor));
      assert Reached(RunLoop(s, run, act, p, out, factor)) == last;
      assert BatchBeforePhase(last.puts) && q0 <= PhaseQueue(last.puts) <= q0 + all by {
        RunEmitsPrefix(s, run, act, p + 1, o', factor);
        PrefixSteps(q0, pass, PhaseQueue(last.puts), rest);
      }
    } else {
      assert PhaseQueue(Reached(RunLoop(s, run, act, p, out, factor)).puts) == q0 + pass;
      assert q0 <= q0 + pass <= q0 + all by {
        if pass != [] {
          PrefixSteps(q0, pass, q0 + pass, rest);
        }
      }
    }
  }

  /** The generators of a run are aligned: every column pulls from its own
      context's phase data, all have the same number of rows, each no
      earlier than the row before (ties allowed). */
  ghost predicate Aligned(s: BatchSetup, run: nat, act: seq<(string, seq<PhaseRecord>)>)
  {
    && EqualLengths(act) && |act[0].1| > 0
    && forall c :: 0 <= c < |act| ==> Ready(s, run, act[c].0, act[c].1)
  }

  /** The generators of a run move in lockstep to the end: they are aligned
      and pauses are scaled by a positive factor. */
  ghost predicate Lockstep(s: BatchSetup, run: nat, act: seq<(string, seq<PhaseRecord>)>, factor: real)
  {
    Aligned(s, run, act) && factor > 0.0
  }

  ghost predicate EqualLengths(act: seq<(string, seq<PhaseRecord>)>)
  {
    |act| > 0 && forall c :: 0 <= c < |act| ==> |act[c].1| == |act[0].1|
  }

  /** Column `col` has its context in run `run`, with batch events, and the
      generator yields that context's phase data, in time order. */
  ghost predicate Ready(s: BatchSetup, run: nat, col: string, rows: seq<PhaseRecord>)
  {
    && ContextAt(s, col, run).Ok?
    && ContextAt(s, col, run).value.batchData != []
    && ContextAt(s, col, run).value.phaseData == rows
    && InTimeOrder(rows)
  }

  ghost predicate InTimeOrder(rows: seq<PhaseRecord>)
  {
    forall i, j :: 0 <= i < j < |rows| ==> rows[i].eventTs <= rows[j].eventTs
  }

  /** When aligned, every pass succeeds and every column yields. */
  lemma {:induction false} AlignedPass(s: BatchSetup, run: nat, act: seq<(string, seq<PhaseRecord>)>,
                                       p: nat, c: nat, out: Out)
    requires Aligned(s, run, act) && p < |act[0].1| && c <= |act|
    ensures PassPrefix(s, run, act, p, c, out).Done?
    ensures c > 0 ==> PassPrefix(s, run, act, p, c, out).value.1
  {
    if c > 0 {
      AlignedPass(s, run, act, p, c - 1, out);
      assert Ready(s, run, act[c - 1].0, act[c - 1].1) && p < |act[c - 1].1|;
    }
  }

  /** In lockstep, after the pass of row `p` the pause is until the row
      after the first row of the last column with row `p`'s time, and it is
      never negative. Before the last pass that row exists; after the last
      pass it exists only when an earlier row shares the last row's time,
      and otherwise the `IndexError` ends the run. */
  lemma LockstepPause(s: BatchSetup, run: nat, act: seq<(string, seq<PhaseRecord>)>, factor: real, p: nat, out: Out)
    requires Lockstep(s, run, act, factor) && p < |act[0].1|
    ensures PassPrefix(s, run, act, p, |act|, out).Done?
    ensures var o := PassPrefix(s, run, act, p, |act|, out).value;
      && o.1
      && Pause(o.0.last, factor).Ok?
      && (p + 1 < |act[0].1| ==> Pause(o.0.last, factor).value.Some?)
  {
    AlignedPass(s, run, act, p, |act|, out);
    assert |act[|act| - 1].1| == |act[0].1| && Ready(s, run, act[|act| - 1].0, act[|act| - 1].1);
    LastPulledBy(s, run, act, p, out);
    var data := act[|act| - 1].1;
    assert InTimeOrder(data);
    var first := FirstAt(data, data[p].eventTs);
    assert first.Some? && first.value <= p;
    var i := first.value;
    if i + 1 < |data| {
      var gap := data[i + 1].eventTs - data[i].eventTs;
      assert gap >= 0.0;
      assert gap / factor >= 0.0;
    }
  }

  /** Once every generator is exhausted, a pass pulls nothing and changes
      nothing. */
  lemma {:induction false} PassExhausted(s: BatchSetup, run: nat, act: seq<(string, seq<PhaseRecord>)>, p: nat, c: nat, out: Out)
    requires c <= |act| && forall d :: 0 <= d < c ==> |act[d].1| <= p
    ensures PassPrefix(s, run, act, p, c, out) == Done((out, false))
  {
    if c > 0 {
      PassExhausted(s, run, act, p, c - 1, out);
    }
  }

  /** A pass over generators of equal length yields a record from every
      column, so it is not empty; once past the last row, nothing is left. */
  lemma LockstepLengths<U>(act: seq<(string, seq<PhaseRecord>)>, stamp: (string, PhaseRecord) -> U, p: nat)
    requires EqualLengths(act)
    ensures p < |act[0].1| ==> PassOutput(act, stamp, p, |act|) != []
    ensures p >= |act[0].1| ==> Stamped(act, stamp, p) == []
  {
    var cols := Sequences(act);
    PassOutputEmit(act, stamp, p, |act|);
    PassEmpty(cols, p, |cols|);
    PassesFromUnfold(cols, p);
    assert cols[0] == act[0].1;
  }

  /** The sleep after pass `p` and the rest of the run. */
  function Slept(o: Out, d: real): Out
  {
    o.(sleeps := o.sleeps + [d])
  }

  /** A pass that yields and pauses is followed by the next pass. */
  lemma RunLoopContinues(s: BatchSetup, run: nat, act: seq<(string, seq<PhaseRecord>)>, p: nat, out: Out, factor: real)
    requires PassPrefix(s, run, act, p, |act|, out).Done? && PassPrefix(s, run, act, p, |act|, out).value.1
    requires Pause(PassPrefix(s, run, act, p, |act|, out).value.0.last, factor).Ok?
    requires Pause(PassPrefix(s, run, act, p, |act|, out).value.0.last, factor).value.Some?
    ensures p < MaxLen(Sequences(act))
    ensures var o := PassPrefix(s, run, act, p, |act|, out).value.0;
      RunLoop(s, run, act, p, out, factor) == RunLoop(s, run, act, p + 1, Slept(o, Pause(o.last, factor).value.value), factor)
  {
    var c :| 0 <= c < |act| && p < |act[c].1|;
    assert Sequences(act)[c] == act[c].1;
  }

  /** A pass whose pause meets the `IndexError` ends the run. */
  lemma RunLoopBreaks(s: BatchSetup, run: nat, act: seq<(string, seq<PhaseRecord>)>, p: nat, out: Out, factor: real)
    requires PassPrefix(s, run, act, p, |act|, out).Done?
    requires Pause(PassPrefix(s, run, act, p, |act|, out).value.0.last, factor) == Ok(None)
    ensures RunLoop(s, run, act, p, out, factor) == Done(PassPrefix(s, run, act, p, |act|, out).value.0)
  {
  }

  /** Over generators of equal length, the passes from a pass before the end
      on are that pass, then the passes after it. */
  lemma LockstepSplit<U>(act: seq<(string, seq<PhaseRecord>)>, stamp: (string, PhaseRecord) -> U, p: nat)
    requires EqualLengths(act) && p < |act[0].1|
    ensures Stamped(act, stamp, p) == PassOutput(act, stamp, p, |act|) + Stamped(act, stamp, p + 1)
  {
    PassThenRest(act, stamp, p);
    LockstepLengths(act, stamp, p);
  }

  /** With generators of equal length, a queue that a pass before the end
      extended with its stamped records, followed by the stamped passes after
      it, is the queue before the pass followed by the stamped passes from it
      on. */
  lemma LockstepQueue(act: seq<(string, seq<PhaseRecord>)>, stamp: (string, PhaseRecord) -> PhaseEvent, p: nat,
                      before: seq<PhaseEvent>, after: seq<PhaseEvent>)
    requires EqualLengths(act) && p < |act[0].1|
    requires after == before + PassOutput(act, stamp, p, |act|)
    ensures after + Stamped(act, stamp, p + 1) == before + Stamped(act, stamp, p)
  {
    var pass := PassOutput(act, stamp, p, |act|);
    LockstepSplit(act, stamp, p);
    assert (before + pass) + Stamped(act, stamp, p + 1) == before + (pass + Stamped(act, stamp, p + 1));
  }

  /** The same for the batch queue, which keeps the non-empty frames. */
  lemma LockstepFrames(act: seq<(string, seq<PhaseRecord>)>, frames: (string, PhaseRecord) -> seq<BatchEvent>, p: nat,
                       before: seq<seq<BatchEvent>>, after: seq<seq<BatchEvent>>)
    requires EqualLengths(act) && p < |act[0].1|
    requires after == before + NonEmpty(PassOutput(act, frames, p, |act|))
    ensures after + NonEmpty(Stamped(act, frames, p + 1)) == before + NonEmpty(Stamped(act, frames, p))
  {
    var pass, rest := PassOutput(act, frames, p, |act|), Stamped(act, frames, p + 1);
    var kept, keptRest := NonEmpty(pass), NonEmpty(rest);
    assert Stamped(act, frames, p) == pass + rest by {
      LockstepSplit(act, frames, p);
    }
    assert NonEmpty(pass + rest) == kept + keptRest by {
      NonEmptyAppend(pass, rest);
    }
    assert (before + kept) + keptRest == before + (kept + keptRest);
  }

  /** Going from `before` to `after` adds `events` to the phase queue and
      `frames` to the batch queue. */
  ghost predicate Queued(before: Out, after: Out, events: seq<PhaseEvent>, frames: seq<seq<BatchEvent>>)
  {
    && PhaseQueue(after.puts) == PhaseQueue(before.puts) + events
    && BatchQueue(after.puts) == BatchQueue(before.puts) + frames
  }

  lemma QueuedThen(a: Out, b: Out, c: Out, e1: seq<PhaseEvent>, f1: seq<seq<BatchEvent>>, e2: seq<PhaseEvent>, f2: seq<seq<BatchEvent>>)
    requires Queued(a, b, e1, f1) && Queued(b, c, e2, f2)
    ensures Queued(a, c, e1 + e2, f1 + f2)
  {
    assert PhaseQueue(a.puts) + e1 + e2 == PhaseQueue(a.puts) + (e1 + e2);
    assert BatchQueue(a.puts) + f1 + f2 == BatchQueue(a.puts) + (f1 + f2);
  }

  /** Both queues a run leaves behind. */
  ghost predicate RunQueues(before: Out, after: Out, s: BatchSetup, run: nat, act: seq<(string, seq<PhaseRecord>)>, p: nat)
  {
    Queued(before, after, Stamped(act, StampOf(s, run), p), NonEmpty(Stamped(act, FramesOf(s, run), p)))
  }

  /** In lockstep the run emits the whole stamped round robin on the phase
      queue, and the non-empty frames of the same pulls on the batch
      queue. */
  lemma {:induction false} LockstepEmitsAll(s: BatchSetup, run: nat, act: seq<(string, seq<PhaseRecord>)>, factor: real,
                                            p: nat, out: Out)
    requires Lockstep(s, run, act, factor) && p < |act[0].1|
    ensures RunLoop(s, run, act, p, out, factor).Done?
    ensures RunQueues(out, RunLoop(s, run, act, p, out, factor).value, s, run, act, p)
    decreases |act[0].1| - p
  {
    LockstepPause(s, run, act, factor, p, out);
    var o := PassPrefix(s, run, act, p, |act|, out).value.0;
    PassPuts(s, run, act, p, |act|, out);
    PassFrames(s, run, act, p, |act|, out);
    LockstepQueue(act, StampOf(s, run), p, PhaseQueue(out.puts), PhaseQueue(o.puts));
    LockstepFrames(act, FramesOf(s, run), p, BatchQueue(out.puts), BatchQueue(o.puts));
    if p + 1 < |act[0].1| {
      var o' := Slept(o, Pause(o.last, factor).value.value);
      RunLoopContinues(s, run, act, p, out, factor);
      LockstepEmitsAll(s, run, act, factor, p + 1, o');
      assert o'.puts == o.puts;
    } else {
      LockstepLengths(act, StampOf(s, run), p + 1);
      LockstepLengths(act, FramesOf(s, run), p + 1);
      assert NonEmpty([]) == [];
      var d := Pause(o.last, factor).value;
      if d.None? {
        RunLoopBreaks(s, run, act, p, out, factor);
      } else {
        var o' := Slept(o, d.value);
        RunLoopContinues(s, run, act, p, out, factor);
        PassExhausted(s, run, act, p + 1, |act|, o');
        assert RunLoop(s, run, act, p + 1, o', factor) == Done(Slept(o', d.value));
      }
    }
  }

  // ---------------------------------------------------------------------
  // What all runs emit

  /** Every run keeps batch events right before their phase event, however
      the runs end. */
  lemma {:induction false} RunsKeepOrder(s: BatchSetup, runs: nat, run: nat, out: Out, factor: real, delay: real)
    requires BatchBeforePhase(out.puts)
    ensures BatchBeforePhase(Reached(Runs(s, runs, run, out, factor, delay)).puts)
    decreases runs - run
  {
    if run < runs && Active(s, run, |s.keys|).Ok? {
      var act := Active(s, run, |s.keys|).value;
      RunEmitsPrefix(s, run, act, 0, out, factor);
      var r := RunLoop(s, run, act, 0, out, factor);
      if r.Done? && delay >= 0.0 {
        RunsKeepOrder(s, runs, run + 1, Slept(r.value, delay), factor, delay);
      }
    }
  }

  /** On both queues of `generate_batch_context_events`, every batch frame is
      queued right before the phase event of its time, also when an
      exception ends the loops early. */
  lemma GenerateKeepsOrder(s: BatchSetup, runs: nat, factor: real, delay: real)
    ensures BatchBeforePhase(Reached(Runs(s, runs, 0, Start, factor, delay)).puts)
  {
    RunsKeepOrder(s, runs, 0, Start, factor, delay);
  }

  /** Every run of the setup moves in lockstep, and the batch delay can be
      slept. */
  ghost predicate AllLockstep(s: BatchSetup, runs: nat, factor: real, delay: real)
  {
    delay >= 0.0 && forall r :: 0 <= r < runs ==> RunReady(s, r, factor)
  }

  ghost predicate RunReady(s: BatchSetup, run: nat, factor: real)
  {
    Active(s, run, |s.keys|).Ok? && Lockstep(s, run, Active(s, run, |s.keys|).value, factor)
  }

  /** The stamped round robins of the runs from `run` on, run after run. */
  function AllStamped(s: BatchSetup, runs: nat, run: nat): seq<PhaseEvent>
    decreases runs - run
  {
    if run >= runs then []
    else
      match Active(s, run, |s.keys|)
      case Err(_) => []
      case Ok(act) => Stamped(act, StampOf(s, run), 0) + AllStamped(s, runs, run + 1)
  }

  /** The non-empty frames of the same pulls, run after run. */
  function AllFrames(s: BatchSetup, runs: nat, run: nat): seq<seq<BatchEvent>>
    decreases runs - run
  {
    if run >= runs then []
    else
      match Active(s, run, |s.keys|)
      case Err(_) => []
      case Ok(act) => NonEmpty(Stamped(act, FramesOf(s, run), 0)) + AllFrames(s, runs, run + 1)
  }

  /** A run that ends normally is followed by the batch delay and the next
      run. */
  lemma RunsStep(s: BatchSetup, runs: nat, run: nat, out: Out, factor: real, delay: real)
    requires run < runs && delay >= 0.0 && Active(s, run, |s.keys|).Ok?
    requires RunLoop(s, run, Active(s, run, |s.keys|).value, 0, out, factor).Done?
    ensures Runs(s, runs, run, out, factor, delay)
            == Runs(s, runs, run + 1, Slept(RunLoop(s, run, Active(s, run, |s.keys|).value, 0, out, factor).value, delay), factor, delay)
  {
  }

  lemma {:induction false} RunsEmitAll(s: BatchSetup, runs: nat, run: nat, out: Out, factor: real, delay: real)
    requires AllLockstep(s, runs, factor, delay)
    ensures Runs(s, runs, run, out, factor, delay).Done?
    ensures Queued(out, Runs(s, runs, run, out, factor, delay).value, AllStamped(s, runs, run), AllFrames(s, runs, run))
    decreases runs - run
  {
    if run < runs {
      assert RunReady(s, run, factor);
      var act := Active(s, run, |s.keys|).value;
      var first := RunLoop(s, run, act, 0, out, factor);
      assert first.Done? && RunQueues(out, first.value, s, run, act, 0) by {
        LockstepEmitsAll(s, run, act, factor, 0, out);
      }
      var o := Slept(first.value, delay);
      assert Runs(s, runs, run, out, factor, delay) == Runs(s, runs, run + 1, o, factor, delay) by {
        RunsStep(s, runs, run, out, factor, delay);
      }
      RunsEmitAll(s, runs, run + 1, o, factor, delay);
      var here, frames := Stamped(act, StampOf(s, run), 0), NonEmpty(Stamped(act, FramesOf(s, run), 0));
      assert Queued(out, o, here, frames) by {
        assert o.puts == first.value.puts;
      }
      QueuedThen(out, o, Runs(s, runs, run + 1, o, factor, delay).value, here, frames, AllStamped(s, runs, run + 1), AllFrames(s, runs, run + 1));
      assert AllStamped(s, runs, run) == here + AllStamped(s, runs, run + 1);
      assert AllFrames(s, runs, run) == frames + AllFrames(s, runs, run + 1);
    } else {
      assert PhaseQueue(out.puts) + [] == PhaseQueue(out.puts) && BatchQueue(out.puts) + [] == BatchQueue(out.puts);
    }
  }

  /** When every run moves in lockstep, the phase queue holds every phase
      event of every run exactly once, run after run, each run in
      round-robin order and stamped with its batch id, then "EOF"; the batch
      queue holds the non-empty frame of batch events of each of those
      pulls, in the same order, then "EOF". */
  lemma GenerateEmitsAll(s: BatchSetup, runs: nat, factor: real, delay: real)
    requires AllLockstep(s, runs, factor, delay)
    ensures Generate(s, runs, factor, delay).raised.None?
    ensures Generate(s, runs, factor, delay).phase == Items(AllStamped(s, runs, 0)) + [Eof]
    ensures Generate(s, runs, factor, delay).batch == Items(AllFrames(s, runs, 0)) + [Eof]
  {
    var r := Runs(s, runs, 0, Start, factor, delay);
    assert r.Done? && PhaseQueue(r.value.puts) == AllStamped(s, runs, 0) && BatchQueue(r.value.puts) == AllFrames(s, runs, 0) by {
      RunsEmitAll(s, runs, 0, Start, factor, delay);
      assert PhaseQueue(Start.puts) == [] && BatchQueue(Start.puts) == [];
    }
    assert Generate(s, runs, factor, delay)
           == Histories(Items(BatchQueue(r.value.puts)) + [Eof], Items(PhaseQueue(r.value.puts)) + [Eof], None);
  }

  /** `active_generators` of a run in which every key has a generator:
      each key with its generator of that run, in key order. */
  lemma {:induction false} ActiveOfFilled(s: BatchSetup, run: nat, n: nat)
    requires n <= |s.keys|
    requires forall c :: 0 <= c < n ==> s.keys[c] in s.generators && run < |s.generators[s.keys[c]]|
    ensures Active(s, run, n).Ok?
    ensures forall c :: 0 <= c < n ==> Active(s, run, n).value[c] == (s.keys[c], s.generators[s.keys[c]][run])
  {
    if n > 0 {
      ActiveOfFilled(s, run, n - 1);
    }
  }

  /** Every key's generator of run `r` yields `data`, which is also the
      phase data of the key's context, and every such context has batch
      events. */
  ghost predicate UniformRun(s: BatchSetup, r: nat, data: seq<PhaseRecord>)
  {
    forall c :: 0 <= c < |s.keys| ==>
      && s.keys[c] in s.generators && r < |s.generators[s.keys[c]]| && s.generators[s.keys[c]][r] == data
      && ContextAt(s, s.keys[c], r).Ok? && ContextAt(s, s.keys[c], r).value.batchData != []
      && ContextAt(s, s.keys[c], r).value.phaseData == data
  }

  /** A run is ready when it is uniform, with non-empty phase data in time
      order. */
  lemma RunReadyOf(s: BatchSetup, r: nat, factor: real, data: seq<PhaseRecord>)
    requires factor > 0.0 && |s.keys| > 0 && data != [] && InTimeOrder(data) && UniformRun(s, r, data)
    ensures RunReady(s, r, factor)
  {
    ActiveOfFilled(s, r, |s.keys|);
  }

  /** Every call of the constructor yields the phase events of `rows` from
      its start time. */
  ghost predicate MakesPhases(make: Maker, rows: seq<TemplateRow>)
  {
    forall id, col, start :: make(id, col, start).Ok? && make(id, col, start).value.phaseData == PhaseData(rows, start)
  }

  /** In a setup built with such a constructor, column `ids[d]`'s generator
      of run `r` yields the phase events of `rows` from the start of run
      `r`, which are also those of its context, and that context has two
      batch events. */
  lemma BuiltColumn(env: Env, m: real, rows: seq<TemplateRow>, ids: seq<string>, runs: nat, r: nat, d: nat)
    requires NoDuplicates(ids) && Lasts(env.make, m) && MakesPhases(env.make, rows) && r < runs && d < |ids|
    ensures Build(env, ids, runs).Ok?
    ensures var s := Build(env, ids, runs).value;
      && s.keys == ids
      && ids[d] in s.generators && r < |s.generators[ids[d]]|
      && s.generators[ids[d]][r] == PhaseData(rows, BatchContext.StartOf(env, m, r))
      && ContextAt(s, ids[d], r).Ok? && |ContextAt(s, ids[d], r).value.batchData| == 2
      && ContextAt(s, ids[d], r).value.phaseData == PhaseData(rows, BatchContext.StartOf(env, m, r))
  {
    var id, start := BatchId(|ids|, r, d), BatchContext.StartOf(env, m, r);
    var ctx := Expected(env, m, ids, r, d);
    assert Made(env, id, ids[d], start) == env.make(id, ids[d], start);
    assert ctx.phaseData == PhaseData(rows, start) && |ctx.batchData| == 2;
    assert Build(env, ids, runs).Ok? && Build(env, ids, runs).value.keys == ids
           && ContextAt(Build(env, ids, runs).value, ids[d], r) == Ok(ctx)
           && ids[d] in Build(env, ids, runs).value.generators
           && r < |Build(env, ids, runs).value.generators[ids[d]]|
           && Build(env, ids, runs).value.generators[ids[d]][r] == ctx.phaseData by {
      BuildShape(env, m, ids, runs);
    }
  }

  /** ... so every run of such a setup is uniform. */
  lemma BuiltRun(env: Env, m: real, rows: seq<TemplateRow>, ids: seq<string>, runs: nat, r: nat)
    requires NoDuplicates(ids) && Lasts(env.make, m) && MakesPhases(env.make, rows) && r < runs
    ensures Build(env, ids, runs).Ok? && Build(env, ids, runs).value.keys == ids
    ensures UniformRun(Build(env, ids, runs).value, r, PhaseData(rows, BatchContext.StartOf(env, m, r)))
  {
    BuildShape(env, m, ids, runs);
    var s := Build(env, ids, runs).value;
    var data := PhaseData(rows, BatchContext.StartOf(env, m, r));
    forall c | 0 <= c < |s.keys|
      ensures && s.keys[c] in s.generators && r < |s.generators[s.keys[c]]| && s.generators[s.keys[c]][r] == data
              && ContextAt(s, s.keys[c], r).Ok? && ContextAt(s, s.keys[c], r).value.batchData != []
              && ContextAt(s, s.keys[c], r).value.phaseData == data
    {
      BuiltColumn(env, m, rows, ids, runs, r, c);
    }
  }

  /** The phase data of a template that keeps a row is not empty and is in
      time order. */
  lemma PhaseDataReady(rows: seq<TemplateRow>, start: real)
    requires rows != []
    ensures PhaseData(rows, start) != [] && InTimeOrder(PhaseData(rows, start))
  {
    var ph := FirstPhase(rows);
    PhaseDataHas(rows, start, ph);
    PhaseDataSorted(rows, start);
  }

  /** Every run of a setup built with a constructor that yields the
      (non-empty) phase events of `rows` is ready for a positive rate
      factor. */
  lemma BuiltReady(env: Env, m: real, rows: seq<TemplateRow>, ids: seq<string>, runs: nat, factor: real)
    requires NoDuplicates(ids) && ids != [] && rows != [] && Lasts(env.make, m) && MakesPhases(env.make, rows)
    requires factor > 0.0 && runs > 0
    ensures Build(env, ids, runs).Ok?
    ensures forall r :: 0 <= r < runs ==> RunReady(Build(env, ids, runs).value, r, factor)
  {
    BuiltRun(env, m, rows, ids, runs, 0);
    var s := Build(env, ids, runs).value;
    forall r | 0 <= r < runs ensures RunReady(s, r, factor) {
      var data := PhaseData(rows, BatchContext.StartOf(env, m, r));
      BuiltRun(env, m, rows, ids, runs, r);
      PhaseDataReady(rows, BatchContext.StartOf(env, m, r));
      RunReadyOf(s, r, factor, data);
    }
  }

  /** A setup that `build_batch_context` builds from a template that keeps a
      row, for column ids without repeats, moves in lockstep in every run:
      every column's generator of a run yields the same number of phase
      events, in time order (ties allowed), and has its batch events. So
      the loops run to the end whenever the rate factor is positive and the
      batch delay is not negative. */
  lemma BuiltLockstep(template: Table, holds: bool, exec: real, delay: real, ids: seq<string>, runs: nat, factor: real)
    requires NoDuplicates(ids) && ids != [] && ApplyHolds(template, holds).rows != []
    requires factor > 0.0 && delay >= 0.0
    ensures Build(Env(MakerOf(template, holds), exec, delay), ids, runs).Ok?
    ensures AllLockstep(Build(Env(MakerOf(template, holds), exec, delay), ids, runs).value, runs, factor, delay)
  {
    var env := Env(MakerOf(template, holds), exec, delay);
    if runs == 0 {
      assert Build(env, ids, 0) == Ok(Empty);
      return;
    }
    var rows := ApplyHolds(template, holds).rows;
    var m := MaxOf(TimeMins(rows)) * 60.0;
    assert Lasts(env.make, m) && MakesPhases(env.make, rows) by {
      MakerFacts(template, holds);
    }
    BuiltReady(env, m, rows, ids, runs, factor);
  }

  /** For a setup built by `build_batch_context` from a template that keeps
      a row, for column ids without repeats, with a positive rate factor and
      a batch delay that is not negative, the phase queue holds every phase
      event of every run exactly once, run after run, then "EOF", and the
      batch queue the non-empty frames of the same pulls, then "EOF". */
  lemma BuiltEmitsAll(template: Table, holds: bool, exec: real, delay: real, ids: seq<string>, runs: nat, factor: real)
    requires NoDuplicates(ids) && ids != [] && ApplyHolds(template, holds).rows != []
    requires factor > 0.0 && delay >= 0.0
    ensures Build(Env(MakerOf(template, holds), exec, delay), ids, runs).Ok?
    ensures var s := Build(Env(MakerOf(template, holds), exec, delay), ids, runs).value;
      && Generate(s, runs, factor, delay).raised.None?
      && Generate(s, runs, factor, delay).phase == Items(AllStamped(s, runs, 0)) + [Eof]
      && Generate(s, runs, factor, delay).batch == Items(AllFrames(s, runs, 0)) + [Eof]
  {
    BuiltLockstep(template, holds, exec, delay, ids, runs, factor);
    GenerateEmitsAll(Build(Env(MakerOf(template, holds), exec, delay), ids, runs).value, runs, factor, delay);
  }

  /** A record of column `c` is emitted by the round robin. */
  lemma StampedHas<U>(act: seq<(string, seq<PhaseRecord>)>, stamp: (string, PhaseRecord) -> U, c: nat, x: PhaseRecord)
    requires c < |act| && x in act[c].1
    ensures stamp(act[c].0, x) in Stamped(act, stamp, 0)
  {
    var cols := Sequences(act);
    RoundRobinColumn(cols, c);
    ColumnHas(RoundRobin(cols), c, x);
    var i :| 0 <= i < |RoundRobin(cols)| && RoundRobin(cols)[i].col == c && RoundRobin(cols)[i].value == x;
    PassesFromTagged(cols, 0);
    assert Stamped(act, stamp, 0)[i] == stamp(act[c].0, x);
  }

  /** The non-empty frames of run `r` are among those of the runs from
      `run` on, when every run up to `r` has its generators. */
  lemma {:induction false} AllFramesHas(s: BatchSetup, runs: nat, run: nat, r: nat, f: seq<BatchEvent>)
    requires run <= r < runs && forall k :: run <= k <= r ==> Active(s, k, |s.keys|).Ok?
    requires f in NonEmpty(Stamped(Active(s, r, |s.keys|).value, FramesOf(s, r), 0))
    ensures f in AllFrames(s, runs, run)
    decreases r - run
  {
    var here := NonEmpty(Stamped(Active(s, run, |s.keys|).value, FramesOf(s, run), 0));
    assert AllFrames(s, runs, run) == here + AllFrames(s, runs, run + 1);
    if run < r {
      AllFramesHas(s, runs, run + 1, r, f);
    }
  }

  /** When every run moves in lockstep, the frame of batch events of every
      pulled phase event is queued, unless it is empty. */
  lemma FrameQueued(s: BatchSetup, runs: nat, factor: real, delay: real, r: nat, c: nat, e: PhaseRecord)
    requires AllLockstep(s, runs, factor, delay) && r < runs && Active(s, r, |s.keys|).Ok?
    requires c < |Active(s, r, |s.keys|).value| && e in Active(s, r, |s.keys|).value[c].1
    requires FrameOf(s, Active(s, r, |s.keys|).value[c].0, r, e) != []
    ensures var q := Generate(s, runs, factor, delay).batch;
      exists i :: 0 <= i < |q| && q[i] == Item(FrameOf(s, Active(s, r, |s.keys|).value[c].0, r, e))
  {
    var act := Active(s, r, |s.keys|).value;
    var f := FrameOf(s, act[c].0, r, e);
    var all := AllFrames(s, runs, 0);
    assert f in all by {
      assert FramesOf(s, r)(act[c].0, e) == f;
      StampedHas(act, FramesOf(s, r), c, e);
      NonEmptyHas(Stamped(act, FramesOf(s, r), 0), f);
      forall k | 0 <= k <= r ensures Active(s, k, |s.keys|).Ok? {
        assert RunReady(s, k, factor);
      }
      AllFramesHas(s, runs, 0, r, f);
    }
    var i :| 0 <= i < |all| && all[i] == f;
    assert Generate(s, runs, factor, delay).batch == Items(all) + [Eof] by {
      GenerateEmitsAll(s, runs, factor, delay);
    }
    assert Generate(s, runs, factor, delay).batch[i] == Item(f);
  }

  /** ... so a batch event of a column's context is queued when one of the
      column's phase events has its time. */
  lemma TimedBatchEventQueued(s: BatchSetup, runs: nat, factor: real, delay: real, r: nat, c: nat, b: BatchEvent)
    requires AllLockstep(s, runs, factor, delay) && r < runs && Active(s, r, |s.keys|).Ok?
    requires c < |Active(s, r, |s.keys|).value| && ContextAt(s, Active(s, r, |s.keys|).value[c].0, r).Ok?
    requires b in ContextAt(s, Active(s, r, |s.keys|).value[c].0, r).value.batchData
    requires exists e :: e in Active(s, r, |s.keys|).value[c].1 && e.eventTs == b.eventTs
    ensures var q := Generate(s, runs, factor, delay).batch;
      exists i :: 0 <= i < |q| && q[i].Item? && b in q[i].value
  {
    var act := Active(s, r, |s.keys|).value;
    var e :| e in act[c].1 && e.eventTs == b.eventTs;
    var f := FrameOf(s, act[c].0, r, e);
    assert b in f;
    FrameQueued(s, runs, factor, delay, r, c, e);
    var q := Generate(s, runs, factor, delay).batch;
    var i :| 0 <= i < |q| && q[i] == Item(f);
  }

  /** Every batch event of the context has the time of one of its phase
      events. */
  ghost predicate BatchTimesMatch(ctx: Context)
  {
    forall b :: b in ctx.batchData ==> exists e :: e in ctx.phaseData && e.eventTs == b.eventTs
  }

  /** ... for every context the constructor makes. */
  ghost predicate MakesTimed(make: Maker)
  {
    forall id, col, start :: make(id, col, start).Ok? ==> BatchTimesMatch(make(id, col, start).value)
  }

  /** The constructor of a template that keeps a row starts the batch with
      its first phase and ends it with its last. */
  lemma MakerTimed(template: Table, holds: bool)
    requires ApplyHolds(template, holds).rows != []
    ensures MakesTimed(MakerOf(template, holds))
  {
    var rows := ApplyHolds(template, holds).rows;
    MakerFacts(template, holds);
    forall id, col, start | MakerOf(template, holds)(id, col, start).Ok?
      ensures BatchTimesMatch(MakerOf(template, holds)(id, col, start).value)
    {
      var ctx := Context(ApplyHolds(template, holds), BatchRows(rows, Recipe, id, col, start), PhaseData(rows, start));
      assert MakerOf(template, holds)(id, col, start) == Ok(ctx);
      BatchTiming.BatchRowsTimed(rows, Recipe, id, col, start);
    }
  }

  /** In a setup that moves in lockstep, every batch event of a context
      whose batch events have the times of its phase events is queued. */
  lemma TimedContextQueued(s: BatchSetup, runs: nat, factor: real, delay: real, r: nat, c: nat)
    requires AllLockstep(s, runs, factor, delay) && r < runs && c < |s.keys|
    requires ContextAt(s, s.keys[c], r).Ok? && BatchTimesMatch(ContextAt(s, s.keys[c], r).value)
    ensures var q := Generate(s, runs, factor, delay).batch;
      forall b :: b in ContextAt(s, s.keys[c], r).value.batchData ==>
        exists i :: 0 <= i < |q| && q[i].Item? && b in q[i].value
  {
    assert RunReady(s, r, factor);
    var act := Active(s, r, |s.keys|).value;
    assert act[c].0 == s.keys[c] && Ready(s, r, act[c].0, act[c].1);
    var ctx := ContextAt(s, s.keys[c], r).value;
    forall b | b in ctx.batchData
      ensures exists i :: 0 <= i < |Generate(s, runs, factor, delay).batch| && Generate(s, runs, factor, delay).batch[i].Item?
                          && b in Generate(s, runs, factor, delay).batch[i].value
    {
      TimedBatchEventQueued(s, runs, factor, delay, r, c, b);
    }
  }

  /** In a setup built with a constructor whose batch events have the times
      of its phase events, so do those of every context. */
  lemma BuiltContextTimed(env: Env, m: real, ids: seq<string>, runs: nat, r: nat, d: nat)
    requires NoDuplicates(ids) && Lasts(env.make, m) && MakesTimed(env.make) && r < runs && d < |ids|
    ensures Build(env, ids, runs).Ok?
    ensures var s := Build(env, ids, runs).value;
      s.keys == ids && ContextAt(s, ids[d], r).Ok? && BatchTimesMatch(ContextAt(s, ids[d], r).value)
  {
    var ctx := Expected(env, m, ids, r, d);
    assert env.make(BatchId(|ids|, r, d), ids[d], BatchContext.StartOf(env, m, r)) == Ok(ctx);
    assert Build(env, ids, runs).Ok? && Build(env, ids, runs).value.keys == ids
           && ContextAt(Build(env, ids, runs).value, ids[d], r) == Ok(ctx) by {
      BuildShape(env, m, ids, runs);
    }
  }

  /** Both batch events of every context of such a setup are queued: the
      `batch_start` row in the frame of the first phase to start, the
      `batch_end` row in the frame of the last phase to end. */
  lemma BuiltBatchEventsQueued(template: Table, holds: bool, exec: real, delay: real, ids: seq<string>, runs: nat, factor: real,
                               r: nat, d: nat)
    requires NoDuplicates(ids) && ids != [] && ApplyHolds(template, holds).rows != []
    requires factor > 0.0 && delay >= 0.0 && r < runs && d < |ids|
    ensures Build(Env(MakerOf(template, holds), exec, delay), ids, runs).Ok?
    ensures var s := Build(Env(MakerOf(template, holds), exec, delay), ids, runs).value;
      var q := Generate(s, runs, factor, delay).batch;
      && ContextAt(s, ids[d], r).Ok? && |ContextAt(s, ids[d], r).value.batchData| == 2
      && forall b :: b in ContextAt(s, ids[d], r).value.batchData ==>
           exists i :: 0 <= i < |q| && q[i].Item? && b in q[i].value
  {
    var env := Env(MakerOf(template, holds), exec, delay);
    var rows := ApplyHolds(template, holds).rows;
    var m := MaxOf(TimeMins(rows)) * 60.0;
    assert Lasts(env.make, m) && MakesPhases(env.make, rows) && MakesTimed(env.make) by {
      MakerFacts(template, holds);
      MakerTimed(template, holds);
    }
    BuiltColumn(env, m, rows, ids, runs, r, d);
    BuiltContextTimed(env, m, ids, runs, r, d);
    var s := Build(env, ids, runs).value;
    assert AllLockstep(s, runs, factor, delay) by {
      BuiltLockstep(template, holds, exec, delay, ids, runs, factor);
    }
    TimedContextQueued(s, runs, factor, delay, r, d);
  }

  /** With a zero rate factor, when the first run's generators are aligned
      and have two rows or more, the first pass is queued on both queues;
      then the pause after it divides by zero, and no "EOF" is put. */
  lemma ZeroFactorStopsAfterFirstPass(s: BatchSetup, runs: nat, delay: real)
    requires runs > 0 && Active(s, 0, |s.keys|).Ok?
    requires Aligned(s, 0, Active(s, 0, |s.keys|).value) && |Active(s, 0, |s.keys|).value[0].1| >= 2
    ensures var act := Active(s, 0, |s.keys|).value;
      Generate(s, runs, 0.0, delay)
      == Histories(Items(NonEmpty(FirstPass(act, FramesOf(s, 0)))), Items(FirstPass(act, StampOf(s, 0))), Some(ZeroDivisionError))
  {
    var act := Active(s, 0, |s.keys|).value;
    var r := PassPrefix(s, 0, act, 0, |act|, Start);
    var frames, events := FirstPass(act, FramesOf(s, 0)), FirstPass(act, StampOf(s, 0));
    assert r.Done? && r.value.0.last.Some? && FirstAt(r.value.0.last.value.data, r.value.0.last.value.ts) == Some(0)
           && |r.value.0.last.value.data| >= 2 by {
      AlignedPass(s, 0, act, 0, |act|, Start);
      assert |act[|act| - 1].1| == |act[0].1| && Ready(s, 0, act[|act| - 1].0, act[|act| - 1].1);
      LastPulledBy(s, 0, act, 0, Start);
    }
    var o := r.value.0;
    assert BatchQueue(o.puts) == NonEmpty(frames) && PhaseQueue(o.puts) == events by {
      PassPuts(s, 0, act, 0, |act|, Start);
      PassFrames(s, 0, act, 0, |act|, Start);
      assert PhaseQueue(Start.puts) == [] && BatchQueue(Start.puts) == [];
    }
    assert Pause(o.last, 0.0) == Err(ZeroDivisionError);
    assert RunLoop(s, 0, act, 0, Start, 0.0) == Raised(o, ZeroDivisionError);
    assert Runs(s, runs, 0, Start, 0.0, delay) == Raised(o, ZeroDivisionError);
  }

  /** The phase data of a template that keeps a row has the start and the
      end of its first phase. */
  lemma PhaseDataTwoRows(rows: seq<TemplateRow>, start: real)
    requires rows != []
    ensures |PhaseData(rows, start)| >= 2
  {
    var ph := FirstPhase(rows);
    PhaseDataHas(rows, start, ph);
    TwoMembers(PhaseData(rows, start), BatchContextGenerator.StartOf(rows, ph, start), EndOf(rows, ph, start));
  }

  lemma TwoMembers(d: seq<PhaseRecord>, a: PhaseRecord, b: PhaseRecord)
    requires a in d && b in d && a.event != b.event
    ensures |d| >= 2
  {
  }

  /** So a setup built by `build_batch_context` from a template that keeps a
      row, for column ids without repeats, never gets past the first pause
      with a zero rate factor: one phase event per column is queued, each
      after its frame of batch events, and `ZeroDivisionError` is raised. */
  lemma BuiltZeroFactorRaises(template: Table, holds: bool, exec: real, delay: real, ids: seq<string>, runs: nat)
    requires NoDuplicates(ids) && ids != [] && ApplyHolds(template, holds).rows != [] && runs > 0
    ensures Build(Env(MakerOf(template, holds), exec, delay), ids, runs).Ok?
    ensures var s := Build(Env(MakerOf(template, holds), exec, delay), ids, runs).value;
      && Active(s, 0, |s.keys|).Ok? && |Active(s, 0, |s.keys|).value| == |ids|
      && var act := Active(s, 0, |s.keys|).value;
         && |FirstPass(act, StampOf(s, 0))| == |ids|
         && Generate(s, runs, 0.0, delay)
            == Histories(Items(NonEmpty(FirstPass(act, FramesOf(s, 0)))), Items(FirstPass(act, StampOf(s, 0))), Some(ZeroDivisionError))
  {
    var env := Env(MakerOf(template, holds), exec, delay);
    var rows := ApplyHolds(template, holds).rows;
    var m := MaxOf(TimeMins(rows)) * 60.0;
    assert Lasts(env.make, m) && MakesPhases(env.make, rows) by {
      MakerFacts(template, holds);
    }
    BuiltReady(env, m, rows, ids, runs, 1.0);
    BuiltColumn(env, m, rows, ids, runs, 0, 0);
    var s := Build(env, ids, runs).value;
    assert RunReady(s, 0, 1.0);
    var act := Active(s, 0, |s.keys|).value;
    assert Ready(s, 0, act[0].0, act[0].1);
    PhaseDataTwoRows(rows, BatchContext.StartOf(env, m, 0));
    ZeroFactorStopsAfterFirstPass(s, runs, delay);
    assert |FirstPass(act, StampOf(s, 0))| == |ids| by {
      AlignedPass(s, 0, act, 0, |act|, Start);
      FirstPassLength(act, StampOf(s, 0), |act|);
    }
  }

  /** Every generator that has a first row adds it to the first pass. */
  lemma {:induction false} FirstPassLength(act: seq<(string, seq<PhaseRecord>)>, stamp: (string, PhaseRecord) -> PhaseEvent, c: nat)
    requires c <= |act| && forall d :: 0 <= d < c ==> act[d].1 != []
    ensures |PassOutput(act, stamp, 0, c)| == c
  {
    if c > 0 {
      FirstPassLength(act, stamp, c - 1);
    }
  }

  /** The batch ids stamped on the phase events of a setup built by
      `build_batch_context` from a template that keeps a row: column
      `ids[d]` in run `r` stamps `r * |ids| + d + 1`. */
  lemma StampedBatchIds(template: Table, holds: bool, exec: real, delay: real, ids: seq<string>, runs: nat, r: nat, d: nat)
    requires NoDuplicates(ids) && ApplyHolds(template, holds).rows != [] && r < runs && d < |ids|
    ensures Build(Env(MakerOf(template, holds), exec, delay), ids, runs).Ok?
    ensures BatchIdOf(Build(Env(MakerOf(template, holds), exec, delay), ids, runs).value, ids[d], r) == BatchId(|ids|, r, d)
  {
    var env := Env(MakerOf(template, holds), exec, delay);
    var rows := ApplyHolds(template, holds).rows;
    var m := MaxOf(TimeMins(rows)) * 60.0;
    var id, start := BatchId(|ids|, r, d), BatchContext.StartOf(env, m, r);
    assert Lasts(env.make, m) && env.make(id, ids[d], start).value.batchData == BatchRows(rows, Recipe, id, ids[d], start) by {
      MakerFacts(template, holds);
    }
    var ctx := Expected(env, m, ids, r, d);
    assert Build(env, ids, runs).Ok? && ContextAt(Build(env, ids, runs).value, ids[d], r) == Ok(ctx) by {
      BuildShape(env, m, ids, runs);
    }
    assert ctx.batchData[0].batchId == id;
  }

  /** With no columns, the first pass pulls nothing, so `phase_data` is read
      before it was ever bound. */
  lemma NoColumnsRaise(s: BatchSetup, runs: nat, factor: real, delay: real)
    requires s.keys == [] && runs > 0
    ensures Generate(s, runs, factor, delay) == Histories([], [], Some(UnboundLocalError("phase_data")))
  {
    assert Active(s, 0, 0) == Ok([]);
    assert RunLoop(s, 0, [], 0, Start, factor) == Raised(Start, UnboundLocalError("phase_data"));
    assert BatchQueue([]) == [] && PhaseQueue([]) == [];
  }

  // An example where the run ends early: column "a" has two phase events,
  // column "b" one, and both contexts one batch event at time 0.
  const ExA := [PhaseRecord("load", "phase_start", 0.0), PhaseRecord("load", "phase_end", 60.0)]
  const ExB := [PhaseRecord("load", "phase_start", 0.0)]
  const ExBatch := [BatchEvent(Recipe, 1, "a", "batch_start", 0.0)]
  const ExSetup := BatchSetup(["a", "b"], map["a" := [Context(Table({}, []), ExBatch, ExA)], "b" := [Context(Table({}, []), ExBatch, ExB)]],
                              map["a" := [ExA], "b" := [ExB]])
  const ExPuts := [ToBatch(ExBatch), ToPhase(Stamp(ExA[0], 1)), ToBatch(ExBatch), ToPhase(Stamp(ExB[0], 1))]

  lemma ExampleLookups()
    ensures Active(ExSetup, 0, 2) == Ok([("a", ExA), ("b", ExB)])
    ensures ContextAt(ExSetup, "a", 0) == Ok(Context(Table({}, []), ExBatch, ExA))
    ensures ContextAt(ExSetup, "b", 0) == Ok(Context(Table({}, []), ExBatch, ExB))
  {
    var s := ExSetup;
    assert "a" != "b" by {
      assert "a"[0] != "b"[0];
    }
    assert s.generators["a"][0] == ExA && s.generators["b"][0] == ExB;
    var none: seq<(string, seq<PhaseRecord>)> := [];
    assert none + [("a", ExA)] == [("a", ExA)];
    assert Active(s, 0, 1) == Ok([("a", ExA)]);
    assert [("a", ExA)] + [("b", ExB)] == [("a", ExA), ("b", ExB)];
    assert s.keys[1] == "b" && "b" in s.generators;
  }

  lemma ExampleRun()
    ensures RunLoop(ExSetup, 0, [("a", ExA), ("b", ExB)], 0, Start, 1.0) == Done(Out(ExPuts, [], Some(Pulled(ExB, 0.0))))
  {
    var s, act := ExSetup, [("a", ExA), ("b", ExB)];
    ExampleLookups();
    assert AtTime(ExBatch, 0.0) == ExBatch;
    var o1 := Out(PullPuts(ExBatch, Stamp(ExA[0], 1)), [], Some(Pulled(ExA, 0.0)));
    assert Start.puts + PullPuts(ExBatch, Stamp(ExA[0], 1)) == o1.puts;
    assert Pull(s, 0, "a", ExA[0], Start) == Ok(o1);
    assert PassPrefix(s, 0, act, 0, 1, Start) == Done((o1, true));
    var o2 := Out(o1.puts + PullPuts(ExBatch, Stamp(ExB[0], 1)), [], Some(Pulled(ExB, 0.0)));
    assert Pull(s, 0, "b", ExB[0], o1) == Ok(o2);
    assert PassPrefix(s, 0, act, 0, 2, Start) == Done((o2, true));
    assert FirstAt(ExB, 0.0) == Some(0);
    assert o2.puts == ExPuts;
  }

  lemma ExampleQueues()
    ensures BatchQueue(ExPuts) == [ExBatch, ExBatch]
    ensures PhaseQueue(ExPuts) == [Stamp(ExA[0], 1), Stamp(ExB[0], 1)]
  {
    var puts := ExPuts;
    assert puts[..3] == puts[..2] + [ToBatch(ExBatch)] && puts[..2] == puts[..1] + [ToPhase(Stamp(ExA[0], 1))];
    assert puts[..1] == [ToBatch(ExBatch)] && puts[..1][..0] == [];
    assert BatchQueue(puts[..1]) == [ExBatch] && PhaseQueue(puts[..1]) == [];
    assert BatchQueue(puts[..2]) == [ExBatch] && PhaseQueue(puts[..2]) == [Stamp(ExA[0], 1)];
    assert BatchQueue(puts[..3]) == [ExBatch, ExBatch] && PhaseQueue(puts[..3]) == [Stamp(ExA[0], 1)];
  }

  /** The run ends as soon as the last column to yield runs out, even if an
      earlier column still has rows: the second event of column "a" is
      never queued. */
  lemma EarlyBreakLosesEvents()
    ensures Generate(ExSetup, 1, 1.0, 0.0)
            == Histories([Item(ExBatch), Item(ExBatch), Eof], [Item(Stamp(ExA[0], 1)), Item(Stamp(ExB[0], 1)), Eof], None)
  {
    ExampleLookups();
    ExampleRun();
    ExampleQueues();
    var o := Out(ExPuts, [0.0], Some(Pulled(ExB, 0.0)));
    assert |ExSetup.keys| == 2;
    assert Slept(Out(ExPuts, [], Some(Pulled(ExB, 0.0))), 0.0) == o;
    assert Runs(ExSetup, 1, 1, o, 1.0, 0.0) == Done(o);
    assert Runs(ExSetup, 1, 0, Start, 1.0, 0.0) == Done(o);
    assert Items([ExBatch, ExBatch]) == [Item(ExBatch), Item(ExBatch)];
    assert Items([Stamp(ExA[0], 1), Stamp(ExB[0], 1)]) == [Item(Stamp(ExA[0], 1)), Item(Stamp(ExB[0], 1))];
    assert [Item(ExBatch), Item(ExBatch)] + [Eof] == [Item(ExBatch), Item(ExBatch), Eof];
    assert [Item(Stamp(ExA[0], 1)), Item(Stamp(ExB[0], 1))] + [Eof] == [Item(Stamp(ExA[0], 1)), Item(Stamp(ExB[0], 1)), Eof];
  }

  // ---------------------------------------------------------------------
  // `send_event_to_gcs`

  /** The object name of an uploaded event,
      `raw/{type}/batch_{id}_{phase_str}context_{ts}.parquet`: the phase
      segment is there for phase events only, and `ts` is the event time
      formatted down to the second with dashes. */
  function EventPath(eventType: string, batchId: nat, phase: string, ts: string): string
  {
    PathHead(eventType) + (NatToString(batchId) + ['_'] + PathTail(eventType, phase, ts))
  }

  function PathHead(eventType: string): string
  {
    "raw/" + eventType + "/batch_"
  }

  function PathTail(eventType: string, phase: string, ts: string): string
  {
    (if eventType == "phase" then "phase_" + phase + "_" else "") + "context_" + ts + ".parquet"
  }

  /** The path of a frame taken off the batch queue, from its first row;
      an empty frame raises on `[0]`. */
  function BatchEventPath(rows: seq<BatchEvent>, format: real -> string): Result<string>
  {
    if rows == [] then Err(KeyError("0"))
    else Ok(EventPath("batch", rows[0].batchId, "", format(rows[0].eventTs)))
  }

  function PhaseEventPath(e: PhaseEvent, format: real -> string): string
  {
    EventPath("phase", e.batchId, e.phase, format(e.eventTs))
  }

  /** Events of different batches never share an object name, whatever
      their phases and times. */
  lemma EventPathsSeparateBatches(eventType: string, id1: nat, id2: nat, ph1: string, ph2: string, ts1: string, ts2: string)
    requires id1 != id2
    ensures EventPath(eventType, id1, ph1, ts1) != EventPath(eventType, id2, ph2, ts2)
  {
    var head := PathHead(eventType);
    var u := NatToString(id1) + ['_'] + PathTail(eventType, ph1, ts1);
    var v := NatToString(id2) + ['_'] + PathTail(eventType, ph2, ts2);
    if head + u == head + v {
      assert u == (head + u)[|head|..] && v == (head + v)[|head|..];
      NumberBeforeSeparator(id1, id2, '_', PathTail(eventType, ph1, ts1), PathTail(eventType, ph2, ts2));
    }
  }

  /** Batch and phase events never share an object name. */
  lemma BatchAndPhasePathsDiffer(id1: nat, id2: nat, ph: string, ts1: string, ts2: string)
    ensures EventPath("batch", id1, "", ts1) != EventPath("phase", id2, ph, ts2)
  {
    assert EventPath("batch", id1, "", ts1)[4] == 'b';
    assert EventPath("phase", id2, ph, ts2)[4] == 'p';
  }

  // ---------------------------------------------------------------------
  // The loops

  /** Once a lookup raises, the rest of the loop is not reached. */
  lemma {:induction false} ActiveErrorPersists(s: BatchSetup, run: nat, n: nat, m: nat)
    requires n <= m <= |s.keys| && Active(s, run, n).Err?
    ensures Active(s, run, m) == Active(s, run, n)
    decreases m
  {
    if n < m {
      ActiveErrorPersists(s, run, n, m - 1);
    }
  }

  lemma {:induction false} PassErrorPersists(s: BatchSetup, run: nat, act: seq<(string, seq<PhaseRecord>)>, p: nat,
                                             c: nat, m: nat, out: Out)
    requires c <= m <= |act| && PassPrefix(s, run, act, p, c, out).Raised?
    ensures PassPrefix(s, run, act, p, m, out) == PassPrefix(s, run, act, p, c, out)
    decreases m
  {
    if c < m {
      PassErrorPersists(s, run, act, p, c, m - 1, out);
    }
  }

  /** Collecting `active_generators` for run `run`. */
  method ActiveGenerators(s: BatchSetup, run: nat) returns (r: Result<seq<(string, seq<PhaseRecord>)>>)
    ensures r == Active(s, run, |s.keys|)
  {
    var act := [];
    for n := 0 to |s.keys|
      invariant Active(s, run, n) == Ok(act)
    {
      var col := s.keys[n];
      if col !in s.generators || |s.generators[col]| <= run {
        ActiveErrorPersists(s, run, n + 1, |s.keys|);
        return Active(s, run, n + 1);
      }
      act := act + [(col, s.generators[col][run])];
    }
    r := Ok(act);
  }

  /** One pass of the `for col_key, gen in active_generators` loop. */
  method PullPass(s: BatchSetup, run: nat, act: seq<(string, seq<PhaseRecord>)>, p: nat, out0: Out)
    returns (r: Ended<(Out, bool)>)
    ensures r == PassPrefix(s, run, act, p, |act|, out0)
  {
    var out, streaming := out0, false;
    for c := 0 to |act|
      invariant PassPrefix(s, run, act, p, c, out0) == Done((out, streaming))
    {
      if p < |act[c].1| {
        var pulled := Pull(s, run, act[c].0, act[c].1[p], out);
        if pulled.Err? {
          PassErrorPersists(s, run, act, p, c + 1, |act|, out0);
          return Raised(out, pulled.error);
        }
        out, streaming := pulled.value, true;
      }
    }
    r := Done((out, streaming));
  }

  /** The `while streaming` loop of one run. */
  method StreamRun(s: BatchSetup, run: nat, act: seq<(string, seq<PhaseRecord>)>, out0: Out, factor: real)
    returns (r: Ended<Out>)
    ensures r == RunLoop(s, run, act, 0, out0, factor)
  {
    var out, p := out0, 0;
    while true
      invariant RunLoop(s, run, act, p, out, factor) == RunLoop(s, run, act, 0, out0, factor)
      decreases MaxLen(Sequences(act)) - p
    {
      var pass := PullPass(s, run, act, p, out);
      if pass.Raised? {
        return Raised(pass.out, pass.error);
      }
      var (o, streaming) := pass.value;
      var pause := Pause(o.last, factor);
      if pause.Err? {
        return Raised(o, pause.error);
      }
      if pause.value.None? {
        return Done(o);
      }
      out := o.(sleeps := o.sleeps + [pause.value.value]);
      if !streaming {
        return Done(out);
      }
      assert p < MaxLen(Sequences(act)) by {
        var c :| 0 <= c < |act| && p < |act[c].1|;
        assert Sequences(act)[c] == act[c].1;
      }
      p := p + 1;
    }
  }

  /** `generate_batch_context_events` */
  method GenerateBatchContextEvents(s: BatchSetup, runs: nat, factor: real, delay: real) returns (r: Histories)
    ensures r == Generate(s, runs, factor, delay)
  {
    var out := Start;
    for run := 0 to runs
      invariant Runs(s, runs, run, out, factor, delay) == Runs(s, runs, 0, Start, factor, delay)
    {
      var act := ActiveGenerators(s, run);
      if act.Err? {
        return Histories(Items(BatchQueue(out.puts)), Items(PhaseQueue(out.puts)), Some(act.error));
      }
      var done := StreamRun(s, run, act.value, out, factor);
      if done.Raised? {
        return Histories(Items(BatchQueue(done.out.puts)), Items(PhaseQueue(done.out.puts)), Some(done.error));
      }
      if delay < 0.0 {
        return Histories(Items(BatchQueue(done.value.puts)), Items(PhaseQueue(done.value.puts)), Some(SleepError));
      }
      out := done.value.(sleeps := done.value.sleeps + [delay]);
    }
    r := Histories(Items(BatchQueue(out.puts)) + [Eof], Items(PhaseQueue(out.puts)) + [Eof], None);
  }
}
