# daily-squat core, modelled in Dafny

This project models the three stateful pieces of the daily-squat appliance and proves
properties of them:

- **Squat counting** (`squat.dfy`, module `Squat`). This is the gate applied to the body
  detector's output, the two-state standing/crouching machine (`Detector`, with its
  `isStanding` field and `headLine` threshold), the `Counter` accumulator, and the update loop
  that increments the counter on every reported squat. Runs over sequences of frames are
  specified by `States` (the flag before and after every frame) and `Squats` (how many frames
  report a squat). They are related to the crouch-to-stand and stand-to-crouch edges of the
  state sequence (`Rises`, `Falls`).
- **Wake-word detection** (`wakeword.dfy`, module `WakeWord`). This is the per-chunk rule of
  `_detect`: a warm-up counter that saturates at 5, then one callback invocation with the
  maximum score when some score is strictly above the threshold. It also covers how
  `start`/`stop` change the detector's fields, and the window arithmetic of
  `_stride_windows`. The callback is an identity (`Handler`). Each invocation is appended to
  the detector's `calls` log. Runs over sequences of chunks are specified by `Run`, and
  compared with `Triggered`, a reference definition of the trigger rule with no warm-up.
- **History store** (`datastore.dfy`, module `History`). The JSON file is a `HistoryFile`
  object: whether it exists, plus its `seq<Record>`. The store covers the 15-day backfill,
  read-append-write `AddItem`, the strict date filter, and the aggregation of consecutive
  records into day buckets. Timestamps are integer seconds. A timestamp's calendar day is
  `t / 86400`. The clock (`today`, `now`) is a parameter. The aggregation takes its merge
  test as a parameter (`sameDay`). Two instances are studied: `IdentityTest` (as written) and
  `SameCalendarDay` (as intended).

Records and buckets are values (`seq<Record>`). The source builds a new dict for every bucket, so
aggregation never changes the records it reads; in the model that holds by construction.

`wrappers.dfy` holds the `Option` and `Result` datatypes shared by the three modules.

Three behaviours of the code worth knowing:

- The warm-up counter is not reset by `start` (wakeword.py:36-39). Warm-up happens once per
  detector instance, and a new `start` after a `stop` does not repeat it.
- Aggregating an empty selection raises, because the source indexes `items[0]`
  (datastore.py:78). `GetItems` returns the error `EmptySelection` in that case.
- After the warm-up, every chunk with a score above the threshold fires the callback, so
  consecutive chunks of one utterance fire it once each.

The merge test of the aggregation is modelled both as written and as intended; see
"## Findings".

## Model

| member | source | states |
|---|---|---|
| `Squat.Detect` | squat.py:83-90 | no detection exactly when there is no box or the score is below the threshold (a score equal to the threshold is kept); otherwise the detection carries the score and box |
| `Squat.Heads` | squat.py:50-55 | one head position per frame, absent exactly for the frames the gate rejects, and otherwise the detection's `ymax` |
| `Squat.Transition` | squat.py:118-128 | the new state is `head < headLine`; a squat is reported iff the old state was crouching and the new one is standing; no squat when the state is unchanged |
| `Squat.FrameStep` | squat.py:46-55 | a frame without detection keeps the state and reports no squat; with one, it is the transition |
| `Squat.SquatsAreRises` | squat.py:113-128 | over any run, the number of reported squats equals the number of crouch-to-stand edges of the state sequence |
| `Squat.SquatsFromStanding` | squat.py:158-162 | from the initial standing state, squats never exceed stand-to-crouch edges and trail them by at most one; they are equal iff the run ends standing |
| `Squat.UndetectedFrameIsInert` | squat.py:45-67 | appending a frame without detection changes neither the final state nor the squat count |
| `Squat.UndetectedFrameCanBeDropped` | squat.py:45-67 | removing a frame without detection from anywhere in a run changes neither the final state nor the squat count |
| `Squat.Counter.constructor` | squat.py:133-135 | a new counter holds 0 |
| `Squat.Counter.Get` | squat.py:137-139 | returns the count and changes nothing |
| `Squat.Counter.Increment` | squat.py:141-143 | the count grows by exactly 1 |
| `Squat.Counter.Reset` | squat.py:145-147 | the count becomes 0 |
| `Squat.Detector.constructor` | squat.py:10-16 | a new detector is standing, with the given threshold and head line |
| `Squat.Detector.UpdateState` | squat.py:113-128 | afterwards `isStanding == (h < headLine)`; returns true iff the old state was crouching and the new one standing |
| `Squat.Detector.ProcessFrame` | squat.py:45-67 | a frame the gate rejects returns false and leaves the state alone; otherwise it is one transition on the detection's head position |
| `Squat.RunSession` | squat.py:158-162 | after a run of frames the counter has grown by `Squats` of the run and the detector is in the run's last state |
| `WakeWord.Max` | wakeword.py:73 | the maximum is one of the scores and no score exceeds it |
| `WakeWord.Fired` | wakeword.py:65-73 | the callback fires iff the warm-up is over and some score is strictly above the threshold; its argument is the maximum score, which is above the threshold |
| `WakeWord.FreshRun` | wakeword.py:65-73 | from a fresh detector the counter after k chunks is min(k, 5); the first 5 chunks never fire, and afterwards the callback receives exactly the maxima of the chunks with a score above the threshold |
| `WakeWord.WarmRun` | wakeword.py:65-66 | with the counter saturated, no chunk is suppressed and the counter stays at 5 |
| `WakeWord.Detector.constructor` | wakeword.py:9-21 | a new detector has no callback, a zero warm-up counter, no stream and no calls |
| `WakeWord.Detector.Start` | wakeword.py:36-39 | registers the callback and starts the stream; the warm-up counter and the call log are unchanged |
| `WakeWord.Detector.IsActive` | wakeword.py:41-43 | reports whether the stream is running |
| `WakeWord.Detector.Stop` | wakeword.py:45-47 | stops the stream; the callback, the warm-up counter and the call log are unchanged |
| `WakeWord.Listen` | wakeword.py:54-75 | a started detector fed a run of chunks, one `_detect` call each (the stream callback), ends with the warm-up counter of `Run` and has appended exactly the calls `Run` says fire, in order |
| `WakeWord.Detector.Detect` | wakeword.py:54-75 | always returns `Continue`; advances the warm-up counter up to 5; during warm-up appends no call; afterwards appends exactly the call `Fired` describes |
| `WakeWord.WindowFits` | wakeword.py:90-94 | every window that `_stride_windows` lays out ends inside the chunk |
| `WakeWord.WindowCountSign` | wakeword.py:92 | the window count is negative exactly when the chunk is shorter than the overlap |
| `WakeWord.WindowCountIsLargest` | wakeword.py:91-92 | the window count is the largest that fits: one more window would run past the end |
| `WakeWord.StrideWindows` | wakeword.py:90-94 | `nfft` rows of `(n - noverlap) / (nfft - noverlap)` columns; no result for a negative count |
| `WakeWord.WindowSample` | wakeword.py:93-94 | sample i of window j is sample `i + j * (nfft - noverlap)` of the chunk, which exists |
| `WakeWord.DefaultChunkWindows` | wakeword.py:77-94 | a 1024-sample chunk with 256/128 gives 7 windows of 256 samples |
| `History.BackfillSpansFifteenDays` | datastore.py:17-23 | the backfill has 15 records of count 0 on days today-14 through today, one day apart, ascending |
| `History.Datastore.constructor` | datastore.py:8-26 | with no file, the file is created holding the backfill; with a file, its records are unchanged, so a second construction is a no-op |
| `History.Datastore.AddItem` | datastore.py:28-35 | the stored records become the old ones followed by the new one |
| `History.Datastore.GetItems` | datastore.py:37-46 | selects all records, or the filtered ones when days are given; an empty selection is an error; otherwise it returns the aggregation of the selection under the given merge test (`IdentityTest` as written, `SameCalendarDay` as intended) |
| `History.AsWrittenQueryReturnsSelection` | datastore.py:37-46 | as written, a query that selects anything returns its selection unchanged, one bucket per stored session |
| `History.FilterByDate` | datastore.py:61-73 | returns the order-preserving filter with cutoff `now - days * 86400` |
| `History.FilterKeepsExactly` | datastore.py:66-71 | a record is kept iff it is in the input and strictly after the cutoff, so a record exactly `days` old is dropped |
| `History.FilterDistributes` | datastore.py:63-73 | the filter works piecewise on any split of the input, so it keeps the original order |
| `History.FortnightOfBackfill` | datastore.py:61-73 | a 14-day query made less than 24 hours after the backfill drops the oldest backfilled record and keeps the other 14 |
| `History.Accumulate` | datastore.py:78-98 | on a non-empty input the result is non-empty, no longer than the input, and its first bucket has the first record's timestamp |
| `History.SegmentsPartition` | datastore.py:78-96 | the segments the merge test cuts the input into are consecutive: joined up they give back the input |
| `History.SegmentMembersPass` | datastore.py:80-88 | every record of a segment passes the merge test against the segment's first record, the `previous` of the loop |
| `History.SegmentOpenersFail` | datastore.py:85-96 | the record that opens a segment fails the merge test against the first record of the segment before it |
| `History.AccumulateBucketAt` | datastore.py:78-98 | there is one bucket per segment, and bucket k is stamped with the first timestamp of segment k and holds the sum of its counts (the first bucket starts from the first record, datastore.py:78-79) |
| `History.AccumulateIsBuckets` | datastore.py:75-98 | for any merge test, the aggregation equals the reference definition: one bucket per segment, with the segment's first timestamp and total count |
| `History.CalendarDayBucketHoldsItsDay` | datastore.py:84-96 | with calendar-day equality, every record of a bucket's segment lies on the bucket's day, and the record opening the next bucket does not |
| `History.CalendarDayGroupsByDay` | datastore.py:84-96 | with calendar-day equality, sessions 5 and 3 on one day and 2 on the next give buckets 8 and 2 |
| `History.AccumulateByDate` | datastore.py:75-98 | the loop computes `Accumulate` for any merge test |
| `History.AccumulatePreservesTotal` | datastore.py:82-94 | the counts over the buckets sum to the counts over the input, for any merge test |
| `History.AccumulateSeparatesBuckets` | datastore.py:85-96 | consecutive buckets fail the merge test between their seed timestamps, for any merge test |
| `History.AccumulateKeepsSeparatedItems` | datastore.py:82-96 | an input none of whose neighbours pass the merge test is returned unchanged |
| `History.IdentityTestCopiesInput` | datastore.py:85 | with the identity test as written, the result is a copy of the input |
| `History.IdentityTestSplitsSameDay` | datastore.py:85-94 | as written, sessions of 5 and 3 on one day stay two buckets |
| `History.CalendarDayBucketsDiffer` | datastore.py:85-96 | with calendar-day equality, adjacent buckets lie on different days |
| `History.CalendarDayMergesSameDay` | datastore.py:85-88 | with calendar-day equality, sessions of 5 and 3 on one day make one bucket of 8 |
| `History.CalendarDayKeepsNextDay` | datastore.py:89-96 | with calendar-day equality, sessions on consecutive days stay two buckets, in order |
| `History.CalendarDayBucketsAscend` | datastore.py:75-98 | on a chronological input, calendar-day buckets have strictly increasing days |
| `History.BackfillAggregatesToItself` | datastore.py:17-23 | the backfilled history aggregates to itself: 15 buckets of count 0 |

## Findings

| source | as written | input that shows it | evidently intended | confidence | as-written member | corrected member |
|---|---|---|---|---|---|---|
| datastore.py:85 | `previous.date() is current.date()` compares the identities of two newly built `date` objects, which is always false, so no two records are ever merged | two sessions on one day, counts 5 and 3: two buckets 5 and 3 | compare the dates by equality, giving one bucket of 8 | high; not executed | `History.IdentityTestCopiesInput` | `History.CalendarDayMergesSameDay` |

`History.IdentityTestSplitsSameDay` shows the counterexample for the code as written.
`History.Datastore.GetItems` takes the merge test as a parameter. With `IdentityTest` it is the
query as written, and `History.AsWrittenQueryReturnsSelection` shows that it then returns its
selection unchanged. With `SameCalendarDay` it is the query as intended, and
`History.CalendarDayBucketsDiffer`, `History.CalendarDayBucketsAscend` and
`History.CalendarDayBucketHoldsItsDay` prove the intended properties of that test, bucket by
bucket.

## Left out

- Camera capture, image resizing and drawing, and TensorFlow Lite inference (squat.py:19-43, 48, 57-65, 72-82, 99-111): these are foreign library calls. What the detector reports for a frame is the input `Inference`.
- Scaling the box to frame pixels (squat.py:92-95) is floating point. The box arrives already scaled, as integers. The head position is the box's fifth component, `ymax`, which the source computes from the box's top edge. `int(num_boxes)` arrives as an integer.
- The `count` argument of `process_frame` is only drawn onto the frame, so `ProcessFrame` does not take it.
- The update loop runs forever in the source. `RunSession` runs it over a finite sequence of frames. The keyboard exit and the display are not modelled.
- The spectrogram (wakeword.py:77-88) and the Keras classifier (wakeword.py:56-63) are float numerics and an opaque model. A chunk's scores are the input `seq<real>`. `_stride_windows` is modelled on element indices, not byte strides.
- PyAudio device setup, `close` and `terminate` (wakeword.py:23-34, 49-52) are device I/O. Only whether the stream is running is modelled, as `streaming`. Chunks arrive only while it runs, which is the precondition of `Detect`.
- The audio thread: `Detect` runs one chunk at a time, with no interleaving against `Start`/`Stop`.
- The debug print of the maximum score (wakeword.py:68-69) is output only.
- JSON reading and writing and ISO-8601 parsing (datastore.py:25-26, 48-59, 67, 80, 83) are file I/O and library parsing. The file is the `HistoryFile` object and timestamps are integers. A file that exists but cannot be parsed is not modelled.
- History.Datastore.constructor: `datetime.today()` is read again in each of the 15 iterations (datastore.py:19). The model reads the clock once, as `today`.
- Calendar days are whole multiples of 86400 seconds from the epoch. Time zones and daylight-saving shifts are not modelled.
- The Flask routes, the busy-wait on the detection flag across threads, MJPEG streaming (server.py) and the browser chart (static/script.js) are orchestration and UI that only call the core.
