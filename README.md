# chrom-stream core, modelled in Dafny

chrom-stream simulates a chromatography plant and streams its data to the
cloud. Producers build trend readings, batch and phase events and SoloVPE
protein-concentration results from a template. They push these on to
multiprocessing queues in round-robin order and close each queue with one
`"EOF"`. Two Cloud Run consumers then receive the trend readings. Each one
keeps a per-instrument running total of the volume that has flowed.
One consumer buffers the readings per unit and writes each full buffer of
1000 readings to a bucket. The other writes one InfluxDB point for each
event that is newer than the unit's stored timestamp.

This project models that core and proves what it does.

- **Consumers** (`totalizer.dfy`, `gcs_consumer.dfy`, `influx_consumer.dfy`).
  - The module-level dictionaries and `BUFFER` are the fields of a class.
  - `process_data` and `handle_event` are methods proved against pure step functions.
  - Lemmas cover the stale filter, the trapezoid total, the flush boundary, the per-unit isolation and the flush path.
- **Round-robin producers** (`multiplex.dfy`, `queues.dfy`, `trend_setup.dfy`, `trend_stream.dfy`, `trend_print.dfy`, `batch_events.dfy`, `batch_timing.dfy`).
  - Each `while streaming` loop equals a pure transpose-and-flatten function of the per-column generators.
  - Lemmas prove each record is emitted exactly once, per-column order, trend-by-trend order, the stamping, and the single `"EOF"`.
  - In the batch-context producer, a run can end early on the `IndexError`. The model covers this: what a run queues is a prefix of the round robin.
  - When the batch-context or the sample-result producer raises, its queues keep what was put before the exception, without `"EOF"`, and lemmas state what that is.
  - With a positive rate factor, both batch rows of every batch reach the batch queue (`batch_timing.dfy` ties their times to phase rows).
  - In the trend producers, a sleep that raises ends the run after trend 0's first pass or after trend 0. What is queued or printed then is a beginning of the complete output, with no `"EOF"`.
- **Dataset builders** (`batch_context.dfy`, `sample_results.dfy`, `sample_runs.dfy`).
  - Batch and sample ids, timestamps, the retest loops and their error paths are modelled.
  - Sort-then-stream and the object paths are modelled.
- **Template-derived tables** (`template.dfy`, `phase_table.dfy`, `batch_context_generator.dfy`, `trend_generator.dfy`).
  - The `holds` filter, the per-phase min/max tables, the batch and phase events, the trend time axis, the clipping and the in-order row generators.
- **The SoloVPE scan** (`regression.dfy`, `result_generator.dfy`).
  - The least-squares fit and its two `ValueError` guards, proved to mean what they say.
  - `generate_result`, with its titer correction and the exceptions its noise draws raise, proved to make the reported concentration proportional to the titer.

Shared pieces are in `common.dfy`, which holds the Python exceptions as a
`Result`, the `Trace` of what a producer emitted before an exception, `str(n)` and the small string helpers, and in `sorting.dfy`.
Timestamps on the producer side are seconds, as reals. On the consumer
side they are integer nanoseconds.

One detail follows the code. An event at `time_ns` 0 for a unit that has
not been seen yet is dropped by the gcs consumer. The stored default is 0,
and the filter drops anything that is not newer. `GcsConsumer.StaleEventDropped` states this.

## Model

| member | source | states |
|---|---|---|
| Totalizer.HandleEventKeepsSameUnits | gcp_cloud_run/gcs_consumer/main.py:86-104 | the three dictionaries gain a unit's key together, so they always hold the same units |
| Totalizer.HandleEventFirst | gcp_cloud_run/gcs_consumer/main.py:86-91 | on a unit's first event the total is set to 0.0 and not incremented; the event carries volume 0.0 and column volumes 0.0 |
| Totalizer.HandleEventIntegrates | gcp_cloud_run/gcs_consumer/main.py:91-98 | on a later event the total grows by exactly ((last flow + flow)/2) · ((ts − last ts)/1e9/60) |
| Totalizer.TrapezoidIncrementNonNegative | gcp_cloud_run/gcs_consumer/main.py:93-98 | with a later timestamp and non-negative flows the increment is ≥ 0, so the total never decreases |
| Totalizer.HandleEventRecords | gcp_cloud_run/gcs_consumer/main.py:101-108 | afterwards the unit's last timestamp and flow are the event's; the event carries the new total and total/1000/226, and nothing else of it changes |
| Totalizer.HandleEventIsolated | gcp_cloud_run/gcs_consumer/main.py:79-104 | other units' entries in all three dictionaries are untouched |
| Totalizer.HandleEventLocal | gcp_cloud_run/gcs_consumer/main.py:82-110 | the annotated event and the unit's new entries depend only on that unit's own entries |
| GcsConsumer.FlushPath | gcp_cloud_run/gcs_consumer/main.py:71 | the flush path is `raw/{unit}/{unit}_trends_{time_iso}.parquet`, and the timestamp part contains no ':' |
| GcsConsumer.StaleEventDropped | gcp_cloud_run/gcs_consumer/main.py:58-60 | an event not newer than the stored timestamp (0 for a new unit) changes no dictionary and no buffer |
| GcsConsumer.AcceptedEventBuffered | gcp_cloud_run/gcs_consumer/main.py:62-68 | a newer event is totalized and appended to its own unit's buffer; below the limit nothing is uploaded |
| GcsConsumer.FlushAtLimit | gcp_cloud_run/gcs_consumer/main.py:68-74 | when the buffer reaches 1000 records, the whole buffer in arrival order is uploaded as one batch under the triggering event's path, and the buffer is reset |
| GcsConsumer.MissingTimeIsoRaisesAtFlush | gcp_cloud_run/gcs_consumer/main.py:68-71 | a flush of an event without `time_iso` raises `KeyError` whatever the upload would do, after the event was totalized and appended: the full buffer is kept and the timestamp has advanced |
| GcsConsumer.OtherUnitsUntouched | gcp_cloud_run/gcs_consumer/main.py:54-74 | other units' dictionaries and buffers are untouched by any call |
| GcsConsumer.BufferStaysBelowLimit | gcp_cloud_run/gcs_consumer/main.py:18 | with uploads that succeed, a call raises iff it flushes an event without `time_iso`; otherwise every buffer stays below 1000 records |
| GcsConsumer.RedeliveryAfterFailedUploadSkipped | gcp_cloud_run/gcs_consumer/main.py:62-74 | when the flush raises (in the upload, or for want of `time_iso`), the buffer stays full but the timestamp has already advanced, so a redelivered copy of the event is skipped |
| GcsConsumer.EventAtTimeZeroDropped | gcp_cloud_run/gcs_consumer/main.py:58 | a fresh consumer drops an event at `time_ns` 0, because the stored timestamp defaults to 0 |
| GcsConsumer.StepTimestamps | gcp_cloud_run/gcs_consumer/main.py:58-62 | a call is skipped iff the event is stale; an accepted event keeps its unit and timestamp, and stored timestamps only move forward |
| GcsConsumer.RunTimestampsMonotone | gcp_cloud_run/gcs_consumer/main.py:58-62 | over any stream of calls a unit's stored timestamp never moves backwards |
| GcsConsumer.AcceptedWithinRun | gcp_cloud_run/gcs_consumer/main.py:58-62 | every accepted event is newer than its unit's stored timestamp before the stream and not newer than it after |
| GcsConsumer.AcceptedStrictlyIncreasing | gcp_cloud_run/gcs_consumer/main.py:58-62 | per unit, the timestamps of accepted events strictly increase |
| GcsConsumer.StepPreservesArrivalOrder | gcp_cloud_run/gcs_consumer/main.py:64-74 | one call's upload followed by the unit's new buffer equals the old buffer followed by the accepted event |
| GcsConsumer.UploadsPreserveArrivalOrder | gcp_cloud_run/gcs_consumer/main.py:64-74 | over a stream, a unit's uploaded batches followed by its buffer are its earlier buffer followed by all its accepted events in arrival order: none lost or duplicated |
| GcsConsumer.RunLocalToUnit | gcp_cloud_run/gcs_consumer/main.py:19-22 | a unit's totals and buffer after a stream equal those after only that unit's events, whatever the interleaving |
| GcsConsumer.RunSnoc | gcp_cloud_run/gcs_consumer/main.py:51-74 | a stream with one more event is one more call of `process_data` |
| GcsConsumer.ProcessStepUnits | gcp_cloud_run/gcs_consumer/main.py:58-62 | a call changes the totalizer state exactly as `handle_event` does when the event is fresh, and not at all otherwise |
| GcsConsumer.ConstantFlowStep | gcp_cloud_run/gcs_consumer/main.py:91-98 | one more reading at the same constant flow extends the exact total flow × elapsed minutes |
| GcsConsumer.FirstReading | gcp_cloud_run/gcs_consumer/main.py:86-91 | the first reading of a fresh consumer opens the unit at total 0.0 |
| GcsConsumer.ConstantFlowTotal | gcp_cloud_run/gcs_consumer/main.py:86-98 | at a constant flow, with increasing timestamps, the total is exactly flow × minutes between first and last reading |
| GcsConsumer.OneMinuteAtSixtyMlPerMinute | gcp_cloud_run/gcs_consumer/main.py:93-98 | two readings one minute apart at 60 mL/min total 60 mL |
| GcsConsumer.Consumer.constructor | gcp_cloud_run/gcs_consumer/main.py:19-22 | all four module-level dictionaries start empty and nothing is uploaded |
| GcsConsumer.Consumer.HandleEvent | gcp_cloud_run/gcs_consumer/main.py:77-110 | the in-place update of the three dictionaries and the annotated event agree with the functional `handle_event`; buffers and uploads are unchanged |
| GcsConsumer.Consumer.ProcessData | gcp_cloud_run/gcs_consumer/main.py:51-74 | the in-place update of dictionaries, buffers and uploads equals the functional step, and `outcome` is its outcome: skipped, buffered, flushed (one more upload), the upload's exception, or `KeyError("time_iso")` at a flush |
| InfluxConsumer.Fields | gcp_cloud_run/influx_consumer/main.py:64-70 | the fields are read in order; the result is Ok iff every one is present, and otherwise `KeyError` names the first missing one |
| InfluxConsumer.StaleEventSkipped | gcp_cloud_run/influx_consumer/main.py:58-60 | an event not newer than the stored timestamp (default 0) writes nothing |
| InfluxConsumer.NewEventWritten | gcp_cloud_run/influx_consumer/main.py:62-74 | a newer complete event is written as one point: measurement "chromatography", tag `instrument` = unit, timed at `time_ns`, with the six readings in order |
| InfluxConsumer.MissingReadingRaises | gcp_cloud_run/influx_consumer/main.py:62-72 | a newer event missing a reading raises `KeyError` for a missing field and writes nothing |
| InfluxConsumer.WrittenPointsArePassing | gcp_cloud_run/influx_consumer/main.py:51-74 | the points a stream writes are the passing events' points, one each, in order |
| InfluxConsumer.FreshConsumerWritesAll | gcp_cloud_run/influx_consumer/main.py:58-104 | because only the uncalled `handle_event` stores timestamps, a fresh consumer writes every complete event with `time_ns` > 0, duplicates and out-of-order events included |
| InfluxConsumer.DuplicateWrittenTwice | gcp_cloud_run/influx_consumer/main.py:58-74 | the same event delivered twice is written twice, as the same point |
| InfluxConsumer.Consumer.constructor | gcp_cloud_run/influx_consumer/main.py:18-20 | the dictionaries start empty and nothing is written |
| InfluxConsumer.Consumer.ProcessData | gcp_cloud_run/influx_consumer/main.py:51-75 | the outcome is the functional step; the dictionaries are left as they were; the sink gains exactly the written point |
| InfluxConsumer.Consumer.HandleEvent | gcp_cloud_run/influx_consumer/main.py:78-111 | the in-place update of the three dictionaries and the annotated event agree with the functional `handle_event`; nothing is written |
| Queues.Items | python_data_generation/src/time_series_trends/main.py:133 | the queue history of a run of `put` calls holds each record, in order |
| Queues.ConsumeUntilEof | python_data_generation/src/time_series_trends/main.py:147-151 | the consumer loop handles exactly the records before the first "EOF", and it stops iff an "EOF" was put |
| Queues.ConsumeRoundTrip | python_data_generation/src/time_series_trends/main.py:142-151 | what a producer puts, records then "EOF", is handled back in full and the loop ends |
| Queues.ConsumeWithoutEof | python_data_generation/src/time_series_trends/main.py:147-151 | a history a producer left without "EOF" is handled in full and the consumer stays blocked |
| Multiplex.PassUpTo | python_data_generation/src/time_series_trends/main.py:125-137 | a pass over the first n generators pulls one record from each one still live |
| Multiplex.PassTagged | python_data_generation/src/time_series_trends/main.py:125-133 | pass p pulls the p-th record of each column it visits, tagged with that column |
| Multiplex.PassEmpty | python_data_generation/src/time_series_trends/main.py:122-137 | a pass yields nothing exactly when every generator is exhausted, which is when the `while streaming` loop ends |
| Multiplex.ColumnOfPass | python_data_generation/src/time_series_trends/main.py:125-137 | a pass contributes to column c exactly its p-th record, if it has one |
| Multiplex.ColumnOfPassesFrom | python_data_generation/src/time_series_trends/main.py:122-137 | the passes from p on emit exactly column c's records from p on, in order |
| Multiplex.RoundRobinColumn | python_data_generation/src/time_series_trends/main.py:122-137 | the pass-by-pass transposition emits every record of every column exactly once, in its column's order |
| Multiplex.PassesFromTagged | python_data_generation/src/time_series_trends/main.py:125-133 | every emitted record comes from the generator it is tagged with |
| Multiplex.LengthOfPassesFrom | python_data_generation/src/time_series_trends/main.py:122-137 | the passes from p emit as many records as remain in the generators |
| Multiplex.RoundRobinLength | python_data_generation/src/time_series_trends/main.py:122-137 | as many records are emitted as the generators hold together |
| Multiplex.Sequences | python_data_generation/src/time_series_trends/main.py:115-118 | the record sequences of the active (key, generator) pairs, in order |
| Multiplex.Emit | python_data_generation/src/time_series_trends/main.py:127-133 | each pulled record is stamped with the key of the generator it came from, in pull order |
| Multiplex.StampSeq | python_data_generation/src/time_series_trends/main.py:128-131 | the records of one generator, each stamped with its key |
| Multiplex.OfKeyOfEmit | python_data_generation/src/time_series_trends/main.py:125-133 | with distinct keys, the stamped output filtered by one key is that column's pulled records, stamped |
| Multiplex.EmittedOfKey | python_data_generation/src/time_series_trends/main.py:122-137 | with distinct keys, one key's part of the stream is its generator's full sequence, stamped, in order |
| Multiplex.EmittedFrom | python_data_generation/src/time_series_trends/main.py:125-133 | every emitted element is some generator's record stamped with that generator's key |
| Multiplex.EmittedLength | python_data_generation/src/time_series_trends/main.py:122-137 | the stream is exactly as long as the generators together |
| Multiplex.StreamPasses | python_data_generation/src/time_series_trends/main.py:122-138 | the `while streaming` loop appends exactly the stamped round-robin transposition to the queue; if the sleep after each pass raises, it appends only the first pass and raises that exception |
| Multiplex.FirstPassPrefix | python_data_generation/src/time_series_trends/main.py:123-138 | the first pass appends at most one record per generator, and they are how the whole round robin begins |
| Multiplex.StreamStep | python_data_generation/src/time_series_trends/main.py:123-137 | one loop iteration appends one pass; it continues iff that pass yielded, and then the rest is the remaining passes |
| Multiplex.OnePass | python_data_generation/src/time_series_trends/main.py:124-137 | the `for col_key, gen` loop advances each live generator by one, appends one stamped record per live generator, and sets `streaming` iff something was yielded |
| Multiplex.PassOutputEmit | python_data_generation/src/time_series_trends/main.py:125-133 | what the inner loop appends equals the stamped pass |
| TrendSetup.Records | python/src/time_series_trends/trend_generator.py:75-78 | the rows a dataset's stream generator yields, in order, with their `time_sec` |
| TrendSetup.TrendData | python_data_generation/src/time_series_trends/main.py:106-111 | the dataset of one (column, trend), which always has columns of equal length |
| TrendSetup.ColumnTrendsErrors | python_data_generation/src/time_series_trends/main.py:104-112 | a column's inner loop succeeds iff every trend's generator is made; otherwise it raises one of their errors |
| TrendSetup.ColumnTrendsValue | python_data_generation/src/time_series_trends/main.py:103-112 | a successful inner loop holds one generator per trend in trend order, and remembers the last dataset |
| TrendSetup.TemplateChoice | python_data_generation/src/time_series_trends/main.py:106-111 | trend j of a column uses the bad template iff `batch_quality[col][j] == "bad"`; a missing column raises `KeyError` and a missing trend `IndexError` |
| TrendSetup.SetupKeys | python_data_generation/src/time_series_trends/main.py:101-103 | the dictionary's keys are the column ids without repeats, in order of first appearance |
| TrendSetup.SetupGenerators | python_data_generation/src/time_series_trends/main.py:102-112 | every key has exactly `number_of_trends` generators, the t-th made for that column's trend t |
| TrendSetup.SetupLast | python_data_generation/src/time_series_trends/main.py:107-110 | `simulated_data` ends as the last column's last trend, and is unbound iff no dataset was made |
| TrendSetup.SetupErrors | python_data_generation/src/time_series_trends/main.py:102-112 | the set-up succeeds iff every (column, trend) generator is made; otherwise the error is one of theirs |
| TrendSetup.SetupStep | python_data_generation/src/time_series_trends/main.py:102-112 | one outer iteration resets the column's list (keeping its key position) and fills it, or stops with the column's error |
| TrendSetup.SetupAdvance | python_data_generation/src/time_series_trends/main.py:102-112 | a successful column iteration gives the next dictionary state |
| TrendSetup.SetupFails | python_data_generation/src/time_series_trends/main.py:102-112 | a column that fails ends the set-up with its error |
| TrendSetup.ColumnStep | python_data_generation/src/time_series_trends/main.py:104-112 | one inner iteration appends the made generator, or stops with its error |
| TrendSetup.SetupErrorPersists | python_data_generation/src/time_series_trends/main.py:102-112 | once a column fails, later columns are not visited |
| TrendSetup.ColumnErrorPersists | python_data_generation/src/time_series_trends/main.py:104-112 | once a trend fails, later trends are not visited |
| TrendSetup.BuildGenerators | python_data_generation/src/time_series_trends/main.py:101-112 | the two nested loops build exactly the specified dictionary, or raise the specified error |
| TrendSetup.FillColumn | python_data_generation/src/time_series_trends/main.py:103-112 | the inner loop builds exactly the column's specified list, or reports its error |
| TrendSetup.MakeGenerator | python_data_generation/src/time_series_trends/main.py:106-111 | one inner iteration looks up the quality, generates the dataset from the chosen template and takes its stream generator |
| TrendStream.Active | python_data_generation/src/time_series_trends/main.py:115-118 | `active_generators` of trend t pairs each key, in dictionary order, with its t-th generator |
| TrendStream.Segments | python_data_generation/src/time_series_trends/main.py:114-139 | what each trend queues, at its own batch start |
| TrendStream.TrendsStep | python_data_generation/src/time_series_trends/main.py:114-139 | the queue after trend t+1 is the queue after trend t followed by trend t's points |
| TrendStream.TimeSecs | python_data_generation/src/time_series_trends/main.py:120 | the `time_sec` column of a dataset, whose maximum fixes the trend spacing |
| TrendStream.SetupCovers | python_data_generation/src/time_series_trends/main.py:101-112 | after the set-up every key holds `number_of_trends` generators |
| TrendStream.SegmentOfUnit | python_data_generation/src/time_series_trends/main.py:122-135 | within a trend, a unit's points are its generator's records, each once and in order, stamped with that unit |
| TrendStream.SegmentStamps | python_data_generation/src/time_series_trends/main.py:127-131 | every queued point is tagged with a key, keeps its record's fields, and has `time_iso`/`time_ns` = batch start + `time_sec` |
| TrendStream.SegmentLength | python_data_generation/src/time_series_trends/main.py:122-137 | a trend queues as many points as its generators hold together |
| TrendStream.TrendsInOrder | python_data_generation/src/time_series_trends/main.py:114 | all points of an earlier trend are queued before any point of a later trend |
| TrendStream.BatchStartMonotone | python_data_generation/src/time_series_trends/main.py:120 | with a non-negative trend length plus gap, the batch start does not decrease with the trend number |
| TrendStream.StreamErrors | python_data_generation/src/time_series_trends/main.py:101-120 | a set-up error is raised before anything is queued; with trends but no column ids `simulated_data` is unbound; with no trends the queue is just "EOF" and nothing is raised |
| TrendStream.StreamEndsWithEof | python_data_generation/src/time_series_trends/main.py:133-142 | the queue ends with exactly one "EOF", after every point, iff nothing was raised; after an exception no "EOF" is queued |
| TrendStream.PassPause | python_data_generation/src/time_series_trends/main.py:138 | the sleep after a pass divides by zero iff the resolution or the factor is 0, and raises nothing iff both are positive or both negative |
| TrendStream.GapPause | python_data_generation/src/time_series_trends/main.py:139 | the sleep after a trend divides by zero iff the factor is 0, and raises nothing iff the gap and the factor do not have opposite signs |
| TrendStream.PacedEnded | python_data_generation/src/time_series_trends/main.py:122-142 | once the set-up has passed, the producer completes iff neither sleep raises, and a division by zero comes from the first sleep that divides by zero |
| TrendStream.PacedPrefix | python_data_generation/src/time_series_trends/main.py:122-139 | a sleep that raises leaves the first pass or all of trend 0 on the queue, a beginning of the complete queue |
| TrendStream.StreamIsPaced | python_data_generation/src/time_series_trends/main.py:114-142 | past the set-up and the `max`, the queue is the first pass, trend 0, or every trend plus "EOF", as the two sleeps decide |
| TrendStream.StreamPacing | python_data_generation/src/time_series_trends/main.py:114-142 | past the set-up and the `max`, the producer completes iff the resolution and the factor have the same sign and the gap does not have the opposite sign, and divides by zero iff the resolution or the factor is 0 |
| TrendStream.StreamPartial | python_data_generation/src/time_series_trends/main.py:114-139 | when a sleep raises, the queue is a beginning of the complete queue: at most one point per unit if the sleep after a pass raises, all of trend 0 if only the sleep after a trend does |
| TrendStream.ItemsPrefix | python_data_generation/src/time_series_trends/main.py:133 | queueing a beginning of the points gives a beginning of the queue |
| TrendStream.GenerateStream | python_data_generation/src/time_series_trends/main.py:90-142 | the producer's queue and the exception it ends with, if any, are exactly the specified ones, including the exceptions of both sleeps |
| TrendStream.ActiveGenerators | python_data_generation/src/time_series_trends/main.py:115-118 | the loop builds `active_generators` for trend t |
| TrendPrint.AllLines | python/src/time_series_trends/main.py:76-94 | the lines each trend prints, trend by trend |
| TrendPrint.TrendLinesOfUnit | python/src/time_series_trends/main.py:83-92 | within a trend, a unit's lines are its records, each once, in order, with `time_sec` moved by the streaming start (no per-trend offset) and every other field unchanged |
| TrendPrint.LinesInOrder | python/src/time_series_trends/main.py:76 | all lines of an earlier trend are printed before any line of a later trend |
| TrendPrint.RatePause | python/src/time_series_trends/main.py:93 | the sleep after a pass divides by zero iff the rate is 0, and raises nothing iff the rate is positive |
| TrendPrint.GapPause | python/src/time_series_trends/main.py:94 | the sleep after a trend raises `ValueError` iff the gap is negative |
| TrendPrint.PrintedErrors | python/src/time_series_trends/main.py:63-94 | a set-up error is raised before anything is printed; otherwise the printer completes iff there are no trends or the rate is positive and the gap non-negative; what is printed is a beginning of all trends' lines, at most one per unit if the sleep after a pass raises; with no column ids nothing is printed |
| TrendPrint.GenerateStream | python/src/time_series_trends/main.py:52-94 | the printed sequence and the exception the printer ends with, if any, are exactly the specified ones, including the exceptions of both sleeps |
| Template.Running | python/src/time_series_trends/trend_generator.py:23 | only rows with `flow_setpoint_L_min` > 0 are kept, every such row is kept, and none is invented |
| Template.Retimed | python/src/time_series_trends/trend_generator.py:25 | the kept rows' `time_min` becomes 0, 0.5, 1.0, … and nothing else changes |
| Template.ApplyHoldsProperties | python/src/time_series_trends/trend_generator.py:22-25 | with holds the template is unchanged; without holds every row left has a positive setpoint, rows are 0.5 min apart from 0, and exactly the running rows of the template remain |
| Template.RunningInOrder | python/src/time_series_trends/trend_generator.py:23 | the filter keeps template order |
| Template.StreamRows | python/src/time_series_trends/trend_generator.py:75-78 | the generator yields the rows in order; in test mode it stops after the row labelled 5, so at most 6 rows |
| TrendGenerator.NewGenerator | python/src/time_series_trends/trend_generator.py:20-33 | the template is filtered by holds; `noise_def or {...}` falls back to the five default keys when `noise_def` is missing or empty |
| TrendGenerator.TimeAxis | python/src/time_series_trends/trend_generator.py:42-43 | `np.arange(0, total + dt, dt)`: ⌈(total + dt)/dt⌉ values (at least 0), the k-th being k·dt |
| TrendGenerator.Interpolated | python/src/time_series_trends/trend_generator.py:48-54 | the interpolation loop keeps every column as long as the time axis |
| TrendGenerator.InterpolatedKeys | python/src/time_series_trends/trend_generator.py:49-54 | the loop succeeds iff every key is a template column, and then adds exactly one column per key |
| TrendGenerator.Noised | python/src/time_series_trends/trend_generator.py:57-59 | the noise loop, when every draw succeeds, adds no column and changes no column length |
| TrendGenerator.InitialFrame | python/src/time_series_trends/trend_generator.py:44-45 | the frame starts with exactly `time_sec` = the axis and `time_min` = `time_sec`/60 |
| TrendGenerator.Clipped | python/src/time_series_trends/trend_generator.py:62-63 | `ph` is clipped to [2, 12] and `cond_mScm` to [0.1, 120], other columns are unchanged, and a missing column raises `KeyError` |
| TrendGenerator.Build | python/src/time_series_trends/trend_generator.py:44-63 | a successful build of interpolation, noise and clipping keeps every column as long as the axis; `BuildErrors` says when it fails |
| TrendGenerator.Dataset | python/src/time_series_trends/trend_generator.py:35-66 | a generated dataset has a non-empty template, a non-zero resolution and columns of equal length |
| TrendGenerator.Rows | python/src/time_series_trends/trend_generator.py:75-76 | `iterrows` gives one row per index, holding every column's value at that index |
| TrendGenerator.StreamGenerator | python/src/time_series_trends/trend_generator.py:68-78 | `get_stream_generator` yields the rows in order; in test mode at most 6 |
| TrendGenerator.InterpolatedKeepsOthers | python/src/time_series_trends/trend_generator.py:49-54 | the interpolation loop leaves columns that are not keys unchanged |
| TrendGenerator.NoisedKeepsOthers | python/src/time_series_trends/trend_generator.py:58-59 | the noise loop leaves columns that are not keys unchanged |
| TrendGenerator.InterpolatedValue | python/src/time_series_trends/trend_generator.py:52-54 | a key listed once is interpolated against the time axis |
| TrendGenerator.NoisedValue | python/src/time_series_trends/trend_generator.py:58-59 | a key listed once gets its own noise added, once |
| TrendGenerator.DatasetErrors | python/src/time_series_trends/trend_generator.py:41-63 | generation fails iff the template is empty (`IndexError`), the resolution is 0 (`ZeroDivisionError`), a `noise_def` key is not a template column (`KeyError` for the first one), a standard deviation is negative (`rng.normal`'s `ValueError`, only once every key was found), or `ph`/`cond_mScm` is not a key (`KeyError` at the clip) |
| TrendGenerator.BuildErrors | python/src/time_series_trends/trend_generator.py:48-63 | after the axis is built, the loops fail iff a key is missing from the template (naming the first one), a standard deviation is negative (`ValueError` from `rng.normal`), or `ph`/`cond_mScm` is not a key |
| TrendGenerator.FirstMissing | python/src/time_series_trends/trend_generator.py:49-51 | a failed interpolation loop names the first key that is not a template column |
| TrendGenerator.DatasetShape | python/src/time_series_trends/trend_generator.py:44-63 | the columns are exactly `time_sec`, `time_min` and the `noise_def` keys, all as long as the axis; `ph` lies in [2, 12] and `cond_mScm` in [0.1, 120] |
| TrendGenerator.BuildShape | python/src/time_series_trends/trend_generator.py:44-63 | the same shape and bounds over any given axis |
| TrendGenerator.DatasetValues | python/src/time_series_trends/trend_generator.py:42-63 | with distinct keys other than the time columns, row k is at k/hz seconds and each key holds its interpolated value plus its noise, clipped for `ph` and `cond_mScm` |
| TrendGenerator.AxisSteps | python/src/time_series_trends/trend_generator.py:42-43 | the axis' k-th value is k/hz seconds |
| TrendGenerator.BuildValues | python/src/time_series_trends/trend_generator.py:44-63 | the values of every column over a given axis |
| TrendGenerator.ClippedValues | python/src/time_series_trends/trend_generator.py:62-63 | clipping turns the interpolated-plus-noise values into their clipped values |
| TrendGenerator.TimeAxisSpan | python/src/time_series_trends/trend_generator.py:41-43 | with a positive resolution the axis starts at 0 and ends in [total, total + 1/hz), so exactly at total when total·hz is whole |
| TrendGenerator.GenerateDataset | python/src/time_series_trends/trend_generator.py:35-66 | the method returns exactly `Dataset`: the frame, or `IndexError`, `ZeroDivisionError`, the first missing key's `KeyError`, `rng.normal`'s `ValueError` for a negative standard deviation, or the clip's `KeyError` |
| TrendGenerator.InterpolateColumns | python/src/time_series_trends/trend_generator.py:48-54 | the interpolation loop builds exactly the specified frame, or raises `KeyError` |
| TrendGenerator.AddNoise | python/src/time_series_trends/trend_generator.py:57-59 | the noise loop adds each key's noise to its column once every standard deviation can be drawn, and raises `rng.normal`'s `ValueError` when one is negative |
| TrendGenerator.ClipColumns | python/src/time_series_trends/trend_generator.py:62-63 | the clipping builds exactly the specified frame, or raises `KeyError` |
| TrendGenerator.ErrorPersists | python/src/time_series_trends/trend_generator.py:50-51 | once a key is missing the loop has raised its `KeyError`, whatever keys follow |
| Common.NatToString | python_data_generation/src/sample_results/main.py:216 | Python's `str(n)` of a non-negative id: at least one decimal digit, one digit iff n < 10 |
| Common.ReplaceChar | gcp_cloud_run/gcs_consumer/main.py:71 | `s.replace(':', '-')`: the same length, every ':' replaced and nothing else changed |
| Common.MinOf | python_data_generation/src/batch_context/batch_context_generator.py:28 | `min` of a non-empty column is one of its values and no value is smaller |
| Common.MaxOf | python_data_generation/src/batch_context/batch_context_generator.py:30 | `max` of a non-empty column is one of its values and no value is larger |
| Common.Ceil | python/src/time_series_trends/trend_generator.py:43 | the ceiling used for the length of `np.arange`: the least integer not below x |
| Common.TruncToInt | python_data_generation/src/time_series_trends/main.py:130 | Python's `int(x)` truncates toward zero, for either sign |
| Common.Dedup | python_data_generation/src/time_series_trends/main.py:101-103 | a dict assigned once per id holds each id exactly once, and only the ids |
| Common.DedupOrder | python_data_generation/src/time_series_trends/main.py:101-103 | the dict's keys are in order of first assignment: an earlier key first appears earlier among the ids |
| Common.NatToStringInjective | python_data_generation/src/sample_results/main.py:216 | different ids print differently |
| Common.NumberBeforeSeparator | python_data_generation/src/batch_context/main.py:163 | an id printed before a non-digit separator can be read back from the path |
| Sorting.Insert | python/src/batch_context/batch_context_generator.py:34 | inserting one record keeps every record and adds exactly that one |
| Sorting.SortBy | python/src/batch_context/batch_context_generator.py:34 | `sort_values` returns a permutation of its input |
| Sorting.SortByHas | python/src/batch_context/batch_context_generator.py:34 | sorting keeps exactly the records it is given |
| Sorting.InsertSorted | python/src/batch_context/batch_context_generator.py:34 | inserting into a sorted sequence keeps it sorted |
| Sorting.InsertStable | python/src/batch_context/batch_context_generator.py:34 | an inserted record goes after every record with the same key |
| Sorting.SortBySorted | python/src/batch_context/batch_context_generator.py:34 | the result is sorted by the key |
| Sorting.SortByStable | python/src/batch_context/batch_context_generator.py:34 | the model's sort keeps the input order among equal keys |
| Sorting.InsertDistinct | python/src/batch_context/batch_context_generator.py:34 | inserting a record that differs from all others on f keeps the records distinct on f |
| Sorting.SortByDistinct | python/src/batch_context/batch_context_generator.py:34 | records that differ on f in the input still differ on f after sorting |
| PhaseTable.PhaseNames | python/src/batch_context/batch_context_generator.py:26 | the `groupby("phase")` groups: each phase of the template once, and nothing else |
| PhaseTable.TimesOf | python/src/batch_context/batch_context_generator.py:26-28 | the `time_min` values of one phase's rows, all of them and only them |
| PhaseTable.SpanOf | python/src/batch_context/batch_context_generator.py:26-28 | a phase's start is the least and its end the greatest `time_min` among its rows, both taken from rows of that phase, so start ≤ end |
| PhaseTable.Aggregate | python/src/batch_context/batch_context_generator.py:26-29 | the aggregate holds one span per distinct phase |
| PhaseTable.Grouped | python/src/batch_context/batch_context_generator.py:26-32 | the grouped table has one row per distinct phase |
| PhaseTable.NewPhaseGenerator | python/src/batch_context/batch_context_generator.py:13-19 | the constructor applies the holds filter to the template before building the table |
| PhaseTable.GroupedRows | python/src/batch_context/batch_context_generator.py:26-32 | every grouped row spans its phase from first to last minute, with seconds = minutes · 60, so start ≤ end |
| PhaseTable.PhaseDatasetProperties | python/src/batch_context/batch_context_generator.py:26-34 | the table is sorted by `phase_start_sec`, is a permutation of the grouped rows, and has exactly one row per distinct phase |
| PhaseTable.GroupedDistinct | python/src/batch_context/batch_context_generator.py:26-29 | no two grouped rows are for the same phase |
| PhaseTable.PhaseDatasetCovers | python/src/batch_context/batch_context_generator.py:26-34 | a phase has a row in the table iff it occurs in the template |
| PhaseTable.PhaseDatasetOnly | python/src/batch_context/batch_context_generator.py:26-34 | every row of the table is a phase of the template |
| BatchContextGenerator.TimeMins | python_data_generation/src/batch_context/batch_context_generator.py:28-30 | the `time_min` column of the template, row by row |
| BatchContextGenerator.PhaseEvents | python_data_generation/src/batch_context/batch_context_generator.py:47-57 | one `phase_start` (at exec + min·60 s) or one `phase_end` (at exec + max·60 s) record per phase |
| BatchContextGenerator.BatchDataWindow | python_data_generation/src/batch_context/batch_context_generator.py:22-39 | exactly two records, `batch_start` then `batch_end`, at exec + min/max `time_min`·60 s, so start ≤ end, both stamped with recipe, batch and column; an empty template raises |
| BatchContextGenerator.UnsortedStart | python_data_generation/src/batch_context/batch_context_generator.py:44-59 | before sorting, the k-th record is the k-th phase's start |
| BatchContextGenerator.UnsortedEnd | python_data_generation/src/batch_context/batch_context_generator.py:44-59 | before sorting, the starts are followed by the ends, in phase order |
| BatchContextGenerator.UnsortedAt | python_data_generation/src/batch_context/batch_context_generator.py:44-59 | every record is the start or the end of a phase of the template |
| BatchContextGenerator.UnsortedDistinct | python_data_generation/src/batch_context/batch_context_generator.py:44-59 | no two records are the same event of the same phase |
| BatchContextGenerator.PhaseDataSorted | python_data_generation/src/batch_context/batch_context_generator.py:59-60 | the phase records are sorted by `event_ts`, there are two per phase, and no two are the same event of the same phase |
| BatchContextGenerator.PhaseDataHas | python_data_generation/src/batch_context/batch_context_generator.py:44-60 | every phase of the template starts and ends in the records, and does not end before it starts |
| BatchContextGenerator.StartIn | python_data_generation/src/batch_context/batch_context_generator.py:44-60 | every phase's start record survives the sort |
| BatchContextGenerator.EndIn | python_data_generation/src/batch_context/batch_context_generator.py:44-60 | every phase's end record survives the sort |
| BatchContextGenerator.PhaseDataOnly | python_data_generation/src/batch_context/batch_context_generator.py:44-60 | every record is the start or the end of a phase of the template |
| BatchContextGenerator.FirstPhase | python_data_generation/src/batch_context/batch_context_generator.py:28-44 | the phase of the template's earliest row starts at that row |
| BatchContextGenerator.LastPhase | python_data_generation/src/batch_context/batch_context_generator.py:30-44 | the phase of the template's latest row ends at that row |
| BatchContextGenerator.BatchStartMatchesPhase | python_data_generation/src/batch_context/batch_context_generator.py:28-60 | some `phase_start` record has the `batch_start` time |
| BatchContextGenerator.BatchEndMatchesPhase | python_data_generation/src/batch_context/batch_context_generator.py:30-60 | some `phase_end` record has the `batch_end` time |
| BatchContextGenerator.NewContextErrors | python_data_generation/src/batch_context/batch_context_generator.py:13-20 | the constructor raises iff no template row is left after the holds filter; otherwise it holds the batch and phase records of the filtered template |
| BatchContextGenerator.GenerateBatchData | python_data_generation/src/batch_context/batch_context_generator.py:22-39 | the loop over the two batch events builds exactly the specified records, or raises on an empty template |
| BatchContextGenerator.NewBatchContext | python_data_generation/src/batch_context/batch_context_generator.py:13-20 | the constructor builds exactly the specified context, or raises |
| BatchContext.MakerFacts | python_data_generation/src/batch_context/main.py:102-104 | with a template that keeps a row, every generator built succeeds with the filtered template, its two batch events and its phase events, and lasts until the template's last minute; with none, every construction raises |
| BatchContext.ErrorPersists | python_data_generation/src/batch_context/main.py:93-106 | once a construction raises, the nested loops stop with that exception |
| BatchContext.StepKeeps | python_data_generation/src/batch_context/main.py:95-106 | one inner-loop step keeps the keys listed once each in insertion order and the two dictionaries in step |
| BatchContext.SetupInvariants | python_data_generation/src/batch_context/main.py:93-106 | the dictionaries' keys are listed once each in insertion order, and the two dictionaries stay in step |
| BatchContext.BuildErrors | python_data_generation/src/batch_context/main.py:85-108 | the dictionaries are built iff there is nothing to build or the template keeps a row, whatever the column ids (repeats included); otherwise the first generator's `min` raises |
| BatchContext.Expected | python_data_generation/src/batch_context/main.py:95-103 | the generator of column d in run r has batch id r·\|ids\| + d + 1 and starts r times (batch length + delay) after the execution time |
| BatchContext.NextStart | python_data_generation/src/batch_context/main.py:101 | a later run starts at the previous run's `batch_end` plus `batch_delay_sec` |
| BatchContext.StepShapeColumn | python_data_generation/src/batch_context/main.py:95-106 | one step appends the expected generator to its own column's two lists |
| BatchContext.StepLater | python_data_generation/src/batch_context/main.py:100-106 | a later run appends to the column's two lists and leaves the keys alone |
| BatchContext.StepShapeOther | python_data_generation/src/batch_context/main.py:94-106 | one step leaves every other column as it was |
| BatchContext.BuildShape | python_data_generation/src/batch_context/main.py:85-108 | with distinct column ids: the keys are the ids in order; each column has exactly one context and one generator per run, in run order; batch ids run 1..runs·columns run-major, column-minor; run 0 starts at the execution time and run r at the previous run's end plus the delay |
| BatchContext.BatchIdsDistinct | python_data_generation/src/batch_context/main.py:92-95 | no two (run, column) pairs get the same batch id |
| BatchContext.AddBatch | python_data_generation/src/batch_context/main.py:95-106 | one inner iteration computes the start, constructs the generator and appends to both lists, exactly as specified |
| BatchContext.BuildBatchContext | python_data_generation/src/batch_context/main.py:85-108 | the nested loops build exactly the specified dictionaries, or raise the specified exception |
| BatchContext.AddRun | python_data_generation/src/batch_context/main.py:94-106 | one run of the inner loop gives the specified dictionaries and counts the batch id up by the number of columns |
| BatchEvents.Active | python_data_generation/src/batch_context/main.py:114-117 | `active_generators` of a run pairs each key, in key order, with that run's generator; a column with too few generators raises |
| BatchEvents.AtTime | python_data_generation/src/batch_context/main.py:127 | the batch rows kept are exactly those with the phase event's `event_ts` |
| BatchEvents.PassPrefix | python_data_generation/src/batch_context/main.py:123-140 | a pass reports `streaming` only when some generator still had a row |
| BatchEvents.FirstAt | python_data_generation/src/batch_context/main.py:134-137 | `cur_phase_idx[0]` is the first row of the phase data at the pulled event's time |
| BatchEvents.Pause | python_data_generation/src/batch_context/main.py:142-146 | the pause after a pass is the gap to the next phase row; a missing next row is the `IndexError` that ends the run; a computed pause is never negative |
| BatchEvents.Generate | python_data_generation/src/batch_context/main.py:110-152 | each queue holds at most one "EOF": it is the last message when the loops complete and absent when they raise, and both queues are non-empty on completion |
| BatchEvents.PullPutsOrdered | python_data_generation/src/batch_context/main.py:126-132 | a pull queues its batch rows (only when there are some) before its phase event, and exactly one phase event |
| BatchEvents.PullKeepsOrder | python_data_generation/src/batch_context/main.py:125-132 | a pull keeps batch rows before phase events, and the queued phase event carries the batch id of that column's context in that run |
| BatchEvents.PassPuts | python_data_generation/src/batch_context/main.py:123-140 | a pass that completes queues on the phase queue exactly the stamped round-robin pass, keeps batch rows before phase events, reports whether it yielded, and changes nothing when it yields nothing |
| BatchEvents.PassFrames | python_data_generation/src/batch_context/main.py:126-129 | a pass that completes queues on the batch queue exactly the non-empty frames of the rows its pulls match, in pull order |
| BatchEvents.PassRaisedPuts | python_data_generation/src/batch_context/main.py:123-140 | a pass that raises keeps what it put before the exception: a prefix of the stamped pass on the phase queue, batch rows still before phase events |
| BatchEvents.LastPulledBy | python_data_generation/src/batch_context/main.py:134-143 | the pause is computed from the phase data of the last column that yielded in the pass |
| BatchEvents.PassThenRest | python_data_generation/src/batch_context/main.py:120-140 | the stamped stream from pass p is pass p followed by the later passes, or nothing once a pass is empty |
| BatchEvents.RunEmitsPrefix | python_data_generation/src/batch_context/main.py:119-146 | however a run ends (normally, at the `IndexError` `break`, or by an exception), its phase queue gains a prefix of the stamped round robin over its generators and batch rows stay before their phase event |
| BatchEvents.LockstepPass | python_data_generation/src/batch_context/main.py:123-140 | when all generators have equal length and matching times, every pass succeeds and yields |
| BatchEvents.LockstepPause | python_data_generation/src/batch_context/main.py:142-146 | in lockstep (phase rows in time order, ties allowed), the pause after pass p is until row p+1 and never negative, and only the pass of the last row meets the `IndexError` |
| BatchEvents.LockstepLengths | python_data_generation/src/batch_context/main.py:120-140 | with equal lengths, a pass before the end yields, and after the end nothing is left |
| BatchEvents.RunLoopContinues | python_data_generation/src/batch_context/main.py:120-146 | a pass that yields and pauses is followed by the next pass |
| BatchEvents.RunLoopBreaks | python_data_generation/src/batch_context/main.py:145-146 | a pass whose pause meets the `IndexError` ends the run |
| BatchEvents.LockstepQueue | python_data_generation/src/batch_context/main.py:120-140 | with equal lengths, one more pass plus the later passes equals the passes from that one on |
| BatchEvents.LockstepEmitsAll | python_data_generation/src/batch_context/main.py:119-146 | in lockstep a run completes, queueing the whole stamped round robin on the phase queue and the non-empty frames of the same pulls on the batch queue |
| BatchEvents.ZeroFactorStopsAfterFirstPass | python_data_generation/src/batch_context/main.py:119-146 | with a zero rate factor and aligned generators of two rows or more, the first pass is queued on both queues, then the pause divides by zero and no "EOF" is put |
| BatchEvents.BuiltZeroFactorRaises | python_data_generation/src/batch_context/main.py:85-146 | a set-up from `build_batch_context` with a template that keeps a row and distinct ids, under a zero rate factor, queues one phase event per column, each after its frame, and then raises `ZeroDivisionError` |
| BatchEvents.PhaseDataTwoRows | python_data_generation/src/batch_context/batch_context_generator.py:44-60 | the phase data of a template that keeps a row has at least the start and the end of its first phase |
| BatchEvents.RunsKeepOrder | python_data_generation/src/batch_context/main.py:113-148 | every run keeps batch rows right before the phase event of their time |
| BatchEvents.GenerateKeepsOrder | python_data_generation/src/batch_context/main.py:110-152 | over all runs, also when an exception ends the loops, every batch frame is queued right before the phase event of its time |
| BatchEvents.RunsStep | python_data_generation/src/batch_context/main.py:113-148 | a run that ends normally is followed by the batch delay and the next run |
| BatchEvents.RunsEmitAll | python_data_generation/src/batch_context/main.py:113-148 | when every run moves in lockstep (as `BuiltLockstep` proves of a set-up `build_batch_context` makes from a template that keeps a row, for distinct column ids, at least one of them, a positive rate factor and a non-negative delay), the runs queue every stamped phase event, run after run |
| BatchEvents.GenerateEmitsAll | python_data_generation/src/batch_context/main.py:110-152 | when every run moves in lockstep (as `BuiltLockstep` proves of a set-up `build_batch_context` makes from a template that keeps a row, for distinct column ids, at least one of them, a positive rate factor and a non-negative delay), the loops complete; the phase queue holds every phase event of every run exactly once, in round-robin order, stamped with its batch id, then one "EOF", and the batch queue the non-empty frames of the same pulls, in the same order, then one "EOF" |
| BatchEvents.PassExhausted | python_data_generation/src/batch_context/main.py:123-140 | once every generator is used up, a pass yields nothing and queues nothing |
| BatchEvents.ActiveOfFilled | python_data_generation/src/batch_context/main.py:114-117 | when every key has a generator for the run, `active_generators` is found and pairs each key with it |
| BatchEvents.RunReadyOf | python_data_generation/src/batch_context/main.py:114-146 | a run whose columns all pull the same non-empty, time-ordered phase data and have their batch events moves in lockstep |
| BatchEvents.BuiltColumn | python_data_generation/src/batch_context/main.py:85-108 | in a set-up built with distinct ids, column d of run r pulls the template's phase events from the start of run r, which are its context's, with two batch events |
| BatchEvents.BuiltRun | python_data_generation/src/batch_context/main.py:85-117 | every run of such a set-up pulls the same phase data in every column |
| BatchEvents.PhaseDataReady | python_data_generation/src/batch_context/main.py:102-104 | a template that keeps a row gives non-empty phase data in time order |
| BatchEvents.BuiltReady | python_data_generation/src/batch_context/main.py:85-146 | with a positive rate factor every run of such a set-up moves in lockstep |
| BatchEvents.BuiltLockstep | python_data_generation/src/batch_context/main.py:85-146 | a set-up built from a template that keeps a row, with distinct ids, a positive rate factor and a non-negative delay, runs every loop to the end |
| BatchEvents.BuiltEmitsAll | python_data_generation/src/batch_context/main.py:85-152 | for such a set-up the loops complete; the phase queue holds every phase event of every run exactly once, run after run, stamped with its batch id, then one "EOF", and the batch queue the non-empty frames of the same pulls, then one "EOF" |
| BatchEvents.FrameQueued | python_data_generation/src/batch_context/main.py:126-129 | in lockstep, the non-empty frame of batch rows of every pulled phase event is on the batch queue |
| BatchEvents.TimedBatchEventQueued | python_data_generation/src/batch_context/main.py:126-129 | in lockstep, a batch row whose time is that of one of its column's phase events is on the batch queue |
| BatchEvents.TimedContextQueued | python_data_generation/src/batch_context/main.py:119-152 | in lockstep, every batch row of a context whose rows have the times of its phase events is queued |
| BatchEvents.MakerTimed | python_data_generation/src/batch_context/batch_context_generator.py:28-60 | the constructor of a template that keeps a row gives batch rows at the times of phase rows |
| BatchTiming.BatchRowsTimed | python_data_generation/src/batch_context/batch_context_generator.py:28-60 | `batch_start` has the time of a `phase_start` row and `batch_end` that of a `phase_end` row |
| BatchEvents.BuiltContextTimed | python_data_generation/src/batch_context/main.py:85-108 | in a set-up built from such a constructor, every context has its batch rows at the times of its phase rows |
| BatchEvents.BuiltBatchEventsQueued | python_data_generation/src/batch_context/main.py:85-152 | for a set-up from `build_batch_context` with a positive factor, both batch rows (`batch_start` and `batch_end`) of every batch are on the batch queue |
| BatchEvents.StampedBatchIds | python_data_generation/src/batch_context/main.py:95-131 | on a set-up from `build_batch_context`, column d in run r stamps batch id r·\|ids\| + d + 1 |
| BatchEvents.NoColumnsRaise | python_data_generation/src/batch_context/main.py:134-143 | with no columns the first pass pulls nothing, so `phase_data` is read unbound: both queues stay empty and no "EOF" is put |
| BatchEvents.EarlyBreakLosesEvents | python_data_generation/src/batch_context/main.py:142-146 | concrete case: the run ends as soon as the last column to yield has no next row, so column "a"'s second event is never queued, on either queue |
| BatchEvents.EventPathsSeparateBatches | python_data_generation/src/batch_context/main.py:161-163 | events of different batches never share an object name |
| BatchEvents.BatchAndPhasePathsDiffer | python_data_generation/src/batch_context/main.py:161-163 | a batch event and a phase event never share an object name |
| BatchEvents.ActiveErrorPersists | python_data_generation/src/batch_context/main.py:115-117 | once a lookup raises, the rest of the loop is not reached |
| BatchEvents.PassErrorPersists | python_data_generation/src/batch_context/main.py:123-137 | once a pull raises, the rest of the pass is not reached |
| BatchEvents.ActiveGenerators | python_data_generation/src/batch_context/main.py:114-117 | the loop builds `active_generators` as specified |
| BatchEvents.PullPass | python_data_generation/src/batch_context/main.py:121-140 | the `for col_key, gen` loop performs exactly `PassPrefix`, keeping what it put when a pull raises |
| BatchEvents.StreamRun | python_data_generation/src/batch_context/main.py:119-146 | the `while streaming` loop of one run performs exactly `RunLoop`, keeping what it put when it raises |
| BatchEvents.GenerateBatchContextEvents | python_data_generation/src/batch_context/main.py:110-152 | the producer's two queue histories and its exception are exactly `Generate`'s: what was put before a raise stays queued, without "EOF" |
| SampleResults.SomePass | python_data_generation/src/sample_results/main.py:189-204 | the retest loop ends at some attempt whose scan does not fail (the assumption the loop's termination rests on) |
| SampleResults.CollectFrom | python_data_generation/src/sample_results/main.py:189-204 | the retests from the i-th on: each attempt is the measurement retested that many times with its own scan result, every attempt but the last failed, and the last one did not |
| SampleResults.Collect | python_data_generation/src/sample_results/main.py:172-206 | a sample's results are never empty; every result but the last failed its scan and the last one did not |
| SampleResults.CollectRetests | python_data_generation/src/sample_results/main.py:187-204 | the j-th result has test id `test_id + j`, is measured j retest delays after the first, and carries its own scan result |
| SampleResults.CollectResultsBySample | python_data_generation/src/sample_results/main.py:168-206 | the `while test_failed` loop returns exactly the specified results |
| SampleResults.CollectCharacterized | python_data_generation/src/sample_results/main.py:187-204 | a non-empty run of successive retests in which only the last scan passes is exactly what the loop returns |
| SampleResults.SampleTimes | python_data_generation/src/sample_results/main.py:107-112 | the post-sample comes `batch_duration_sec + 2·sampling_ts_buffer_sec` after the pre-sample; in run 0 the pre-sample is `sampling_ts_buffer_sec` before the execution time |
| SampleResults.InstrumentIdsDistinct | python_data_generation/src/sample_results/main.py:104 | different column positions get different `solovpe_{idx+1}` instruments |
| SampleResults.PairStep | python_data_generation/src/sample_results/main.py:103-136 | as written (line 121 reading the post-sample result) the first step raises `UnboundLocalError`; when line 121 reads the pre-sample result, the step succeeds exactly when the column has a quality entry for the run, and otherwise raises the lookup's `KeyError` or `IndexError`; both result lists are non-empty |
| SampleResults.PairStepTimes | python_data_generation/src/sample_results/main.py:107-112 | a step's first pre-sample and post-sample results are measured at the run's sampling times |
| SampleResults.CollectKeeps | python_data_generation/src/sample_results/main.py:168-206 | all results of one sample keep its batch, sample, instrument, column and titer, take consecutive test ids, and the first is the measurement itself |
| SampleResults.PairStepParts | python_data_generation/src/sample_results/main.py:115-136 | a successful step is the retest run of its pre-sample followed by the retest run of its post-sample, whose test id follows the last pre-sample test |
| SampleResults.PairStepSamples | python_data_generation/src/sample_results/main.py:115-134 | pre-sample results are of the step's batch and sample at titer 1.0; post-sample results are of the next sample id, at 4.5 when the run is "bad" and 5.0 otherwise |
| SampleResults.PairStepTestIds | python_data_generation/src/sample_results/main.py:106-135 | with line 121 corrected, a step's tests take consecutive ids following the last test before it |
| SampleResults.DatasetDefined | python_data_generation/src/sample_results/main.py:101-138 | the loops build a dataset exactly when no step raises |
| SampleResults.DatasetTestIds | python_data_generation/src/sample_results/main.py:101-138 | with steps that number their tests on, the dataset's test ids are consecutive from the starting counter |
| SampleResults.DatasetIds | python_data_generation/src/sample_results/main.py:101-138 | with steps that number their samples on, batch ids go up by one per step and each batch has pre-sample id 2b-1 and post-sample id 2b; batch ids never go down |
| SampleResults.PairStepsFailOnQuality | python_data_generation/src/sample_results/main.py:115-136 | the corrected step raises exactly at a missing quality entry and always has a post-sample result |
| SampleResults.PairStepsNumberTests | python_data_generation/src/sample_results/main.py:106-135 | the corrected step numbers its tests on from the counter |
| SampleResults.PairStepsNumberSamples | python_data_generation/src/sample_results/main.py:103-125 | the corrected step uses the batch id and two sample ids that follow the counter |
| SampleResults.BuildDefined | python_data_generation/src/sample_results/main.py:89-138 | the corrected builder returns a dataset exactly when every column has a quality entry for every run |
| SampleResults.BuildTestIds | python_data_generation/src/sample_results/main.py:89-138 | test ids run 1, 2, 3, … through the whole dataset of the corrected builder |
| SampleResults.BuildIds | python_data_generation/src/sample_results/main.py:89-138 | batch ids run from 1 to `number_of_runs · len(column_ids)` in order, and batch b has pre-sample id 2b-1 and post-sample id 2b |
| SampleResults.AsWrittenRaises | python_data_generation/src/sample_results/main.py:121 | as written, the builder raises `UnboundLocalError` for any non-empty runs and columns |
| SampleResults.BuildSampleDataset | python_data_generation/src/sample_results/main.py:89-138 | the nested loops return exactly the specified dataset, or its error |
| SampleResults.CollectPair | python_data_generation/src/sample_results/main.py:103-136 | one inner-loop pass returns exactly the specified step, and both result lists are non-empty on success |
| SampleResults.StepRaises | python_data_generation/src/sample_results/main.py:127 | a missing quality entry raises the lookup's `KeyError` or `IndexError` |
| SampleResults.StepCollects | python_data_generation/src/sample_results/main.py:115-136 | a step that collects its pre-sample results and then its post-sample results succeeds with those results |
| SampleResults.Advance | python_data_generation/src/sample_results/main.py:101-138 | a successful step moves its results from the rest of the build to the results built so far |
| SampleResults.Delays | python_data_generation/src/sample_results/main.py:154-159 | there is one sleep for each gap between successive results |
| SampleResults.StreamSorted | python_data_generation/src/sample_results/main.py:146-165 | the `while streaming` loop over date-sorted results leaves exactly `Stream`: the results put, then "EOF" when it ends normally; with a zero factor only the first result and `ZeroDivisionError`; with a negative factor the results up to the first later date and the negative-sleep `ValueError` |
| SampleResults.GenerateSampleResultEvents | python_data_generation/src/sample_results/main.py:140-165 | the producer leaves exactly `Events` (results sorted by date, then streamed, keeping what was put before a raise); it raises `StopIteration` exactly when there are no results |
| SampleResults.StreamRaisedKeepsPrefix | python_data_generation/src/sample_results/main.py:146-160 | a raise leaves the first sorted results on the queue, no "EOF", and, when there are results, at least one but not all of them |
| SampleResults.EventsRaisedUploadsEarliest | python_data_generation/src/sample_results/main.py:140-216 | after a raise the uploader has written the earliest results, each under its own path, and waits for an "EOF" that never comes |
| SampleResults.ZeroFactorQueuesEarliest | python_data_generation/src/sample_results/main.py:152-159 | with a zero factor and two results or more, exactly one result, one with the earliest date, is put before `ZeroDivisionError`, and no sleep happens |
| SampleResults.DelaysSpan | python_data_generation/src/sample_results/main.py:154-159 | the sleeps add up to the span of the dates divided by the rate factor |
| SampleResults.DelaysNonNegative | python_data_generation/src/sample_results/main.py:143-159 | sleeps between date-sorted results are never negative when the factor is positive |
| SampleResults.StreamDeliverEach | python_data_generation/src/sample_results/main.py:146-165 | the queue holds every sorted result exactly once, in order, then one EOF; the sleeps are never negative |
| SampleResults.EventsDeliverEach | python_data_generation/src/sample_results/main.py:140-165 | every result is queued exactly once (a permutation of the input), in date order, then one EOF |
| SampleResults.DelaysFlat | python_data_generation/src/sample_results/main.py:154-159 | with a negative factor the stream only succeeds when all dates are equal, and then every sleep is zero |
| SampleResults.StreamSpan | python_data_generation/src/sample_results/main.py:146-160 | with paced replay, the sleeps add up to the span of the dates divided by the factor |
| SampleResults.SamplePathsSeparateSamples | python_data_generation/src/sample_results/main.py:215 | results of different samples go to different files |
| SampleResults.RetestsShareAPath | python_data_generation/src/sample_results/main.py:191-215 | with no retest delay, every attempt of a sample is uploaded to the same file as the first |
| SampleResults.Uploads | python_data_generation/src/sample_results/main.py:211-216 | the uploader writes each queued result before the EOF under its own path |
| SampleResults.UploadsFollowDates | python_data_generation/src/sample_results/main.py:140-216 | producer and uploader together: each result is uploaded once, in date order, under its own path |
| SampleRuns.SomePass | python/src/sample_results/main.py:64-77 | the retest loop ends at some attempt whose scan does not fail (the assumption the loop's termination rests on) |
| SampleRuns.AttemptsFrom | python/src/sample_results/main.py:64-77 | the retests from the i-th on: each is the request retested that many times with its own scan result, all but the last failed, and the last did not |
| SampleRuns.Attempts | python/src/sample_results/main.py:52-77 | a sample's records are never empty; all but the last failed their scan and the last did not |
| SampleRuns.AttemptsSpaced | python/src/sample_results/main.py:62-77 | the j-th record has sample id `sample_id + j` and is requested j retest delays after the first; nothing else changes |
| SampleRuns.RetestUntilPass | python/src/sample_results/main.py:52-77 | with the call corrected to `generate_result`, the first request and the `while test_failed` loop return exactly the specified records |
| SampleRuns.AttemptsCharacterized | python/src/sample_results/main.py:62-77 | a non-empty run of successive retests in which only the last scan passes is exactly what the loop returns |
| SampleRuns.InstrumentIdsDistinct | python/src/sample_results/main.py:41 | different column positions get different `solovpe_{idx}` instruments |
| SampleRuns.VisitColumn | python/src/sample_results/main.py:40-106 | with the call corrected to `generate_result`, one inner-loop pass succeeds exactly when `batch_quality[col][run]` exists, and otherwise raises the lookup's `KeyError` or `IndexError`; on success both samples have records |
| SampleRuns.VisitIds | python/src/sample_results/main.py:42-94 | a pass numbers its records on from the sample counter: pre-sample retests first, post-sample retests after them |
| SampleRuns.RequestTimes | python/src/sample_results/main.py:43-49 | the first post-sample request is `batch_duration_sec + 2·sampling_ts_buffer_sec` after the first pre-sample request; in run 0 the pre-sample is `sampling_ts_buffer_sec` before the execution time |
| SampleRuns.VisitRequests | python/src/sample_results/main.py:52-106 | every record of a step, retests included, is of the step's batch and instrument and carries `bad_run = batch_quality[col][run] == "bad"`; pre-sample records ask for titer 1.0 and post-sample records for titer 5.0 |
| SampleRuns.VisitsSameSteps | python/src/sample_results/main.py:38-106 | steps that agree at every position give the same loops |
| SampleRuns.SamplesAre | python/src/sample_results/main.py:38-106 | any step that is the specified pass everywhere gives the specified dataset |
| SampleRuns.VisitsDefined | python/src/sample_results/main.py:38-106 | for steps that raise exactly at a missing quality entry (as the corrected pass does), the loops end normally exactly when every quality entry they look up exists, and then every column has its list |
| SampleRuns.StoreNumbered | python/src/sample_results/main.py:46-105 | filing records numbered on from the counter keeps every column's list increasing and the lists disjoint |
| SampleRuns.VisitsNumbered | python/src/sample_results/main.py:38-106 | the loops keep the per-column lists numbered |
| SampleRuns.StepOfFails | python/src/sample_results/main.py:59 | the corrected pass (calling `generate_result`) raises exactly at a missing quality entry |
| SampleRuns.StepOfNumbers | python/src/sample_results/main.py:42-94 | the specified pass numbers its records on from the counter |
| SampleRuns.SamplesDefined | python/src/sample_results/main.py:26-108 | with the call corrected to `generate_result`, `generate_samples` returns exactly when `batch_quality` has an entry for every column and run, and then has one list per column (none when there are no runs) |
| SampleRuns.SamplesNumbered | python/src/sample_results/main.py:26-108 | every result, retests included, has its own sample id, and each column's list is in increasing sample-id order |
| SampleRuns.GenerateSamples | python/src/sample_results/main.py:26-108 | with the call corrected to `generate_result`, the nested loops return exactly the specified dataset, or its error |
| SampleRuns.AsWrittenAttributeError | python/src/sample_results/main.py:52 | as written, `generate_samples` raises `AttributeError("generate_sample_result")` at its first step whatever `batch_quality` holds, and returns only (an empty dict) when there is no run or no column |
| SampleRuns.NoColumnsVisits | python/src/sample_results/main.py:38-39 | with no column the loops only count the runs and return an empty dict |
| SampleRuns.IntendedCallSamples | python/src/sample_results/main.py:38-106 | with the call corrected to `generate_result`, the loops are exactly the modelled `Samples` |
| SampleRuns.VisitsStep | python/src/sample_results/main.py:46-106 | after a pass that collects its records, the loops file them under the column and go on, or raise when the column has no list yet |
| SampleRuns.VisitOne | python/src/sample_results/main.py:40-106 | with the call corrected to `generate_result`, one inner-loop pass returns exactly the specified step, and has a post-sample record on success |
| SampleRuns.StepRaises | python/src/sample_results/main.py:59 | with the call corrected to `generate_result`, a missing quality entry raises the lookup's `KeyError` or `IndexError` |
| SampleRuns.StepVisits | python/src/sample_results/main.py:52-106 | with the call corrected to `generate_result`, a pass with a quality entry collects the pre-sample retests, then the post-sample retests numbered on from them |
| Regression.TrendParamsOf | python/src/sample_results/sample_result_generator.py:30-74 | a failed fit raises only the slope or the r-square `ValueError`; a successful one reports `n` as the number of points, which is positive |
| Regression.CalculateTrendParams | python/src/sample_results/sample_result_generator.py:30-74 | the two loops and the guards return exactly the specified fit or error |
| Regression.SumsOf | python/src/sample_results/sample_result_generator.py:34-43 | the first loop accumulates Σx, Σy, Σx² and Σxy over the raw data points |
| Regression.SquaredSums | python/src/sample_results/sample_result_generator.py:57-62 | the second loop accumulates the residual sum of squares of the line and the total sum of squares around the mean absorbance |
| Regression.SquaredDeviationsExpand | python/src/sample_results/sample_result_generator.py:62 | Σ(y − c)² = Σy² − 2c·Σy + n·c² |
| Regression.SquaredDeviationsZero | python/src/sample_results/sample_result_generator.py:61-64 | a sum of squares is never negative, and it is zero exactly when every term is |
| Regression.SpreadStep | python/src/sample_results/sample_result_generator.py:46 | adding a point grows the denominator n·Σx² − (Σx)² by its squared distances to the earlier points |
| Regression.SpreadZero | python/src/sample_results/sample_result_generator.py:46-48 | the slope's denominator is never negative, and it is zero exactly when all pathlengths are equal (no points at all included) |
| Regression.MeanDeviations | python/src/sample_results/sample_result_generator.py:52-62 | around the mean, the total sum of squares is the spread divided by n |
| Regression.TrendParamsFail | python/src/sample_results/sample_result_generator.py:45-64 | the slope error is raised exactly when all pathlengths are equal; the r-square error exactly when they differ but all absorbances are equal |
| Regression.FitSucceeds | python/src/sample_results/sample_result_generator.py:30-74 | the fit succeeds exactly when neither the pathlengths nor the absorbances are all equal, and then reports the least-squares slope |
| Regression.NormalEquations | python/src/sample_results/sample_result_generator.py:45-54 | the reported slope and intercept solve the least-squares normal equations, and the line passes through the mean point |
| Regression.FittedLine | python/src/sample_results/sample_result_generator.py:45-54 | the slope and intercept formulas make the residuals sum to zero and leave them uncorrelated with the pathlength |
| Regression.SplitSquares | python/src/sample_results/sample_result_generator.py:57-62 | for such a line, the total sum of squares is the residual sum of squares plus the part the line explains |
| Regression.RSquareBounds | python/src/sample_results/sample_result_generator.py:63-65 | r² always lies between 0 and 1 |
| Regression.LineResiduals | python/src/sample_results/sample_result_generator.py:59-61 | points on a line leave no residual |
| Regression.ExactSlope | python/src/sample_results/sample_result_generator.py:45-49 | the slope formula recovers the slope of points on an exact line |
| Regression.ExactIntercept | python/src/sample_results/sample_result_generator.py:51-54 | the intercept formula recovers the intercept of points on an exact line |
| Regression.ExactFit | python/src/sample_results/sample_result_generator.py:30-74 | points exactly on y = k·x + d with two distinct pathlengths give back that line with r² = 1, unless the line is flat, in which case the r-square error is raised |
| Regression.LineApart | python/src/sample_results/sample_result_generator.py:63-64 | on a line that is not flat, different pathlengths have different absorbances |
| ResultGenerator.AdjustedPoints | python/src/sample_results/sample_result_generator.py:100-103 | the raw data keep their length, and each point is corrected for the titer and gets its own absorbance noise |
| ResultGenerator.Generated | python/src/sample_results/sample_result_generator.py:77-122 | `generate_result` returns a scan, reporting "success" or "fail", exactly when every noise draw can be made and the titer is not 0; otherwise it raises, in source order, `KeyError` for a missing "temperature" entry, the "scale < 0" `ValueError`, `ZeroDivisionError` for a titer of 0, `KeyError` for a missing "absorbance" entry when there are points, or the scale error of a point. All of these are outside the `try` |
| ResultGenerator.GenerateResult | python/src/sample_results/sample_result_generator.py:77-122 | the field-by-field edit of the copied template, the two noise draws and the loop over its raw data points give exactly the specified scan or error |
| ResultGenerator.NoiseDefOf | python/src/sample_results/sample_result_generator.py:13-20 | a missing or empty `noise_def` is replaced by the default one, which has both entries; any other is kept |
| ResultGenerator.DefaultNoiseDraws | python/src/sample_results/sample_result_generator.py:15-103 | with the default `noise_def`, the draws can be made exactly when the template temperature and every absorbance are not negative |
| ResultGenerator.CorrectedUndone | python/src/sample_results/sample_result_generator.py:95-103 | a scan whose pathlength range and raw data points were corrected for the titer, with noise on each absorbance, gives back the template's pathlengths when multiplied by the titer, and each absorbance is the template's plus its own noise |
| ResultGenerator.AtTiterInverse | python/src/sample_results/sample_result_generator.py:96-102 | multiplying by the titer undoes the titer correction |
| ResultGenerator.AtTiterInjective | python/src/sample_results/sample_result_generator.py:102 | two pathlengths are equal after the correction exactly when they were equal before it |
| ResultGenerator.AdjustedPathlengthsEqual | python/src/sample_results/sample_result_generator.py:100-102 | the corrected pathlengths are all equal exactly when the template's are |
| ResultGenerator.ScanOutcome | python/src/sample_results/sample_result_generator.py:82-120 | a completed scan succeeds exactly when neither the template's pathlengths nor the noisy absorbances are all equal |
| ResultGenerator.ScanFailure | python/src/sample_results/sample_result_generator.py:82-120 | a failed scan keeps the template's regression and concentration and has exactly one more error: the slope message when the pathlengths are all equal, the r-square message otherwise |
| ResultGenerator.ScanSuccess | python/src/sample_results/sample_result_generator.py:106-118 | a successful scan reports a fit over all the points with r² in [0, 1] whose line passes through the mean point, and the concentration slope / 1.45; its errors are the template's |
| ResultGenerator.ScanStamped | python/src/sample_results/sample_result_generator.py:81-92 | a completed scan carries the request's metadata, the date and the noisy temperature, and keeps the template's other messages |
| ResultGenerator.ScanCorrected | python/src/sample_results/sample_result_generator.py:95-103 | in a completed scan, the pathlength range and raw pathlengths give back the template's when multiplied by the titer, and each absorbance is the template's plus its own noise |
| ResultGenerator.UnitTiter | python/src/sample_results/sample_result_generator.py:95-102 | with titer 1 a completed scan keeps the template's pathlength range and raw pathlengths |
| ResultGenerator.TotalAcross | python/src/sample_results/sample_result_generator.py:39-43 | summing terms that are c times other terms gives c times their sum |
| ResultGenerator.SlopeScaleAlgebra | python/src/sample_results/sample_result_generator.py:45-49 | dividing the x values by t scales the slope's denominator by 1/t² and the slope by t; whether the denominator is zero does not change |
| ResultGenerator.TiterScalesSlope | python/src/sample_results/sample_result_generator.py:45-102 | dividing the pathlengths by the titer multiplies the least-squares slope by the titer; whether the slope exists does not change |
| ResultGenerator.TiterScalesFit | python/src/sample_results/sample_result_generator.py:30-103 | the fit at titer t exists exactly when the fit at titer 1 does, and its slope is t times larger |
| ResultGenerator.AdjustedAbsorbancesEqual | python/src/sample_results/sample_result_generator.py:103 | the noisy absorbances do not depend on the titer |
| ResultGenerator.ConcentrationScales | python/src/sample_results/sample_result_generator.py:95-118 | with the same template and the same noise, a scan at titer t succeeds exactly when the scan at titer 1 does, and then reports t times its concentration |

## Left out

- Cloud I/O: Pub/Sub, the bucket client, parquet and JSON serialisation, and the InfluxDB client are not modelled.
  - An upload is a record of its path and batch.
  - Whether the bucket upload returns or raises is the parameter `uploadSucceeds`.
  - The InfluxDB sink is a ghost sequence of written points.
- Flask routing, base64/JSON decoding of the push envelope and the HTTP responses are left out. The model starts at `process_data`.
- Multiprocessing, `main()`, argparse and YAML loading are left out. Every queue is a sequence of messages ending in `"EOF"`, and each producer is modelled on its own.
- The consumer loops that print queue contents are left out.
- `time.sleep` does not wait.
  - In the batch-event and sample-result producers, the requested sleep lengths are returned as a sequence so that they can be stated.
  - In the two trend producers, every sleep after a pass has the same length, and so does every sleep after a trend. Only the exception each sleep raises (`ZeroDivisionError`, or `ValueError` for a negative length) is modelled, with where it stops the producer.
  - A negative sleep raises the error `time.sleep` raises.
- Randomness is passed in as parameters: noise per column and row, and noise per raw data point. The distribution of the noise is not modelled.
  - Because of that, `noise_def`'s means, `noise_scale` and the size of the standard deviations appear only as the already-scaled values those parameters return. The sign of each standard deviation is modelled: a negative one makes `rng.normal` raise `ValueError`.
  - For a sample scan, `noise_def` decides only whether each draw can be made: its entry must exist and its scale must not be negative.
- `np.interp`, `isoformat`, `strftime` and `strptime` are functions passed in.
  - `strptime` is the sort key `DateKey`.
  - Reading the templates from disk is left out; a template is a value.
- Floating point is modelled as exact `real` arithmetic. The `int(timestamp()*1e9)` truncation is modelled by `TruncToInt`, and the rounding of every other operation is not modelled.
- The data-generation package's `SampleResultGenerator`, with its `generate_sample_result` and `get_event_generator`, is called by that package's sample builders but its file is not part of this model. `generate_sample_result` is there an oracle that gives the `scan_result` of one request. The `python` package's `SampleResultGenerator.generate_result` is modelled on its own, in `result_generator.dfy`.
- SampleRuns.Samples: models `generate_samples` with its call corrected to `generate_result` (see "## Findings"); that method is the oracle `gen`, which always gives a `scan_result`. The exceptions `ResultGenerator.Generated` can raise (a missing noise key, a negative scale, a zero titer) are not passed through the loops.
- SampleResults.Collect: rests on three assumptions about code that is not part of this model.
  - The `while test_failed` loops end only when some retest does not fail. The model requires that of the oracle; otherwise the source would loop forever.
  - The `generate_sample_result` oracle echoes the request's `test_id` and dates each record with the measurement time it was given. A record is therefore its measurement plus a scan result.
  - `get_event_generator` yields the sorted list of results whole and in order, one result per `next`.
- GcsConsumer.Consumer.ProcessData: an event is a record with `chrom_unit` and an integer `time_ns` always present, and `flow_mL_min` a number. The `KeyError` of a missing `chrom_unit`, `time_ns` or `flow_mL_min` (gcp_cloud_run/gcs_consumer/main.py:54-55 and :82-84) and the `ValueError` of a `time_ns` that `int()` cannot parse are not modelled; only `time_iso` may be missing, and its `KeyError` at the flush is.
- InfluxConsumer.Consumer.ProcessData: an event always has `chrom_unit` and an integer `time_ns`. The `KeyError` of a missing `chrom_unit` or `time_ns` and the `ValueError` of a `time_ns` that `int()` cannot parse (gcp_cloud_run/influx_consumer/main.py:53-54) are not modelled; the six readings may be missing, and their `KeyError` is.
- TrendSetup.Records: python_data_generation/src/time_series_trends/main.py:8 imports the data-generation package's own `TrendGenerator`, and that file is not part of this model. The model uses the `TrendGenerator` of python/src/time_series_trends/trend_generator.py in its place, so what the set-up and stream lemmas state about datasets and records rests on the two classes behaving alike.
- SampleRuns.Attempts: the same assumption that some retest eventually passes.
- BatchContext.BuildShape: proved for distinct column ids only. With a repeated id the dictionary keeps one key and `BuildErrors` still describes when the build succeeds, but the shape of the lists is not stated.
- PhaseTable.Aggregate: lists the phases in order of first appearance, where `groupby` sorts them by name. The tables built from it are sorted by time afterwards, so only the order of phases with equal times differs, and no lemma claims that order.
- Sorting.SortBy is a stable sort. `DataFrame.sort_values` is not stable by default, so no lemma claims an order between phase events with equal times.
- `_calculate_trend_params` reads only the pathlength and absorbance of each raw data point. A scan records only the fields `generate_result` touches, plus the errors and messages it keeps.
- `copy.deepcopy` needs no modelling because values are immutable: the template a scan is built from cannot change.
- The `bad_run` argument is passed through unread to the instrument oracle, so its effect is not modelled.
- The Airflow DAG, the dbt models and the test files are not part of this model.

## Findings

| source | as written | input that shows it | evidently intended | confidence | as-written member | corrected member |
|---|---|---|---|---|---|---|
| python_data_generation/src/sample_results/main.py:121 | after the pre-sample results, `test_id` is read from `cur_post_sample_result`, which is unbound in the first step, so `build_sample_dataset` raises `UnboundLocalError` | `number_of_runs = 1`, `column_ids = ["chrom_1"]`, any quality table | `test_id` is read from `cur_pre_sample_result[-1]`, so test ids run 1, 2, 3, … through the dataset | not executed | SampleResults.AsWrittenRaises | SampleResults.BuildTestIds |
| python/src/sample_results/main.py:52 | the loops call `generate_sample_result` (also at lines 67, 81 and 96) on a `SampleResultGenerator`, which defines only `__init__`, `_read_json`, `_calculate_trend_params` and `generate_result`; the attribute lookup raises `AttributeError` before any argument is evaluated | `number_of_runs = 1`, `column_ids = ["chrom_1"]`, any `batch_quality` | the call is `generate_result`, whose keyword parameters match it, and the loops return one list of results per column when every quality entry exists | not executed | SampleRuns.AsWrittenAttributeError | SampleRuns.SamplesDefined |
