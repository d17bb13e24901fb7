/**
 * The session history (datastore.py): a file holding a list of `{count, created_at}`
 * records, backfilled with fifteen empty days when it does not exist, appended to after
 * every session, and queried through a date filter and a same-day aggregation.
 *
 * The file is an object holding a sequence of records; timestamps are whole seconds and a
 * timestamp's calendar day is `t / SecondsPerDay`. The clock is a parameter.
 */
module History {
  import opened Wrappers

  const SecondsPerDay: int := 86400
  /** Days written by the constructor when there is no file: 14 days back through today. */
  const BackfillDays: nat := 15

  /** One session, or one aggregated day: a repetition count and a timestamp. */
  datatype Record = Record(count: int, createdAt: int)

  /** Why a query has no answer: the source indexes the first record of an empty list. */
  datatype QueryError = EmptySelection

  /** The calendar day of a timestamp. */
  function Day(t: int): int
  {
    t / SecondsPerDay
  }

  lemma DayShift(t: int, k: int)
    ensures Day(t + k * SecondsPerDay) == Day(t) + k
  {
    var q, r := t / SecondsPerDay, t % SecondsPerDay;
    assert t + k * SecondsPerDay == (q + k) * SecondsPerDay + r;
  }

  lemma DayMonotone(a: int, b: int)
    requires a <= b
    ensures Day(a) <= Day(b)
  {
  }

  /** The merge test of the source as written: `is` on two freshly built `date` objects. */
  predicate IdentityTest(previous: int, current: int)
  {
    false
  }

  /** The merge test the aggregation is meant to apply: the same calendar day. */
  predicate SameCalendarDay(previous: int, current: int)
  {
    Day(previous) == Day(current)
  }

  // ---------------------------------------------------------------------------------------
  // Backfill

  /** The records the constructor writes: count 0 on each of the 15 days ending today. */
  function Backfill(today: int): seq<Record>
  {
    seq(BackfillDays, i requires 0 <= i < BackfillDays => Record(0, today - (14 - i) * SecondsPerDay))
  }

  /** The backfill spans 15 consecutive calendar days, today last, all with count 0. */
  lemma BackfillSpansFifteenDays(today: int)
    ensures |Backfill(today)| == 15
    ensures forall i :: 0 <= i < 15 ==>
      Backfill(today)[i].count == 0 && Day(Backfill(today)[i].createdAt) == Day(today) - 14 + i
    ensures forall i :: 0 < i < 15 ==>
      Backfill(today)[i].createdAt == Backfill(today)[i - 1].createdAt + SecondsPerDay
  {
    forall i | 0 <= i < 15
      ensures Day(Backfill(today)[i].createdAt) == Day(today) - 14 + i
    {
      DayShift(today, i - 14);
    }
  }

  // ---------------------------------------------------------------------------------------
  // Filtering by date

  /** `now - timedelta(days=days)`. */
  function Cutoff(now: int, days: int): int
  {
    now - days * SecondsPerDay
  }

  /** The records strictly after the cutoff, in their order. */
  function Filter(items: seq<Record>, cutoff: int): (r: seq<Record>)
    ensures |r| <= |items|
  {
    if items == [] then []
    else
      var kept := Filter(items[..|items| - 1], cutoff);
      var item := items[|items| - 1];
      if item.createdAt > cutoff then kept + [item] else kept
  }

  /** A record survives the filter exactly when it is strictly after the cutoff; a record
      exactly at the cutoff is dropped. */
  lemma {:induction false} FilterKeepsExactly(items: seq<Record>, cutoff: int)
    ensures forall x :: x in Filter(items, cutoff) <==> x in items && x.createdAt > cutoff
  {
    if items != [] {
      var prefix := items[..|items| - 1];
      FilterKeepsExactly(prefix, cutoff);
      assert items == prefix + [items[|items| - 1]];
    }
  }

  /** The filter keeps the order: it works piecewise on any split of the history. */
  lemma {:induction false} FilterDistributes(a: seq<Record>, b: seq<Record>, cutoff: int)
    ensures Filter(a + b, cutoff) == Filter(a, cutoff) + Filter(b, cutoff)
    decreases |b|
  {
    if b == [] {
      assert a + b == a;
    } else {
      var prefix := b[..|b| - 1];
      FilterDistributes(a, prefix, cutoff);
      assert (a + b)[..|a + b| - 1] == a + prefix;
    }
  }

  lemma {:induction false} FilterDropsAll(items: seq<Record>, cutoff: int)
    requires forall i :: 0 <= i < |items| ==> items[i].createdAt <= cutoff
    ensures Filter(items, cutoff) == []
  {
    if items != [] {
      FilterDropsAll(items[..|items| - 1], cutoff);
    }
  }

  lemma {:induction false} FilterKeepsAll(items: seq<Record>, cutoff: int)
    requires forall i :: 0 <= i < |items| ==> items[i].createdAt > cutoff
    ensures Filter(items, cutoff) == items
  {
    if items != [] {
      FilterKeepsAll(items[..|items| - 1], cutoff);
    }
  }

  /** A fourteen-day view taken less than 24 hours after the backfill leaves out the oldest
      backfilled record: it is at least fourteen days old, not newer. */
  lemma FortnightOfBackfill(today: int, now: int)
    requires today <= now < today + SecondsPerDay
    ensures Filter(Backfill(today), Cutoff(now, 14)) == Backfill(today)[1..]
  {
    var b := Backfill(today);
    var cutoff := Cutoff(now, 14);
    assert b == b[..1] + b[1..];
    FilterDistributes(b[..1], b[1..], cutoff);
    FilterDropsAll(b[..1], cutoff);
    FilterKeepsAll(b[1..], cutoff);
  }

  /** `_filter_by_date`. */
  method FilterByDate(items: seq<Record>, days: int, now: int) returns (filtered: seq<Record>)
    ensures filtered == Filter(items, Cutoff(now, days))
  {
    filtered := [];
    var startDate := now - days * SecondsPerDay;
    for i := 0 to |items|
      invariant filtered == Filter(items[..i], startDate)
    {
      assert items[..i + 1][..i] == items[..i];
      if items[i].createdAt > startDate {
        filtered := filtered + [items[i]];
      }
    }
    assert items[..|items|] == items;
  }

  // ---------------------------------------------------------------------------------------
  // Aggregation by date

  /** The sum of the counts of a list of records. */
  function Total(items: seq<Record>): int
  {
    if items == [] then 0 else Total(items[..|items| - 1]) + items[|items| - 1].count
  }

  /** `_accumulate_by_date` under a merge test: each record after the first is added to the
      last bucket when the test holds between that bucket's timestamp and the record's, and
      otherwise starts a bucket of its own. */
  function Accumulate(items: seq<Record>, sameDay: (int, int) -> bool): (r: seq<Record>)
    requires |items| > 0
    ensures 0 < |r| <= |items|
    ensures r[0].createdAt == items[0].createdAt
    decreases |items|
  {
    if |items| == 1 then [items[0]]
    else
      var buckets := Accumulate(items[..|items| - 1], sameDay);
      var item := items[|items| - 1];
      var seed := buckets[|buckets| - 1];
      if sameDay(seed.createdAt, item.createdAt)
      then buckets[|buckets| - 1 := seed.(count := seed.count + item.count)]
      else buckets + [item]
  }

  lemma TotalAppend(items: seq<Record>, item: Record)
    ensures Total(items + [item]) == Total(items) + item.count
  {
    assert (items + [item])[..|items|] == items;
  }

  lemma {:induction false} TotalUpdateLast(items: seq<Record>, extra: int)
    requires |items| > 0
    ensures Total(items[|items| - 1 := items[|items| - 1].(count := items[|items| - 1].count + extra)])
         == Total(items) + extra
  {
    var updated := items[|items| - 1 := items[|items| - 1].(count := items[|items| - 1].count + extra)];
    assert updated[..|updated| - 1] == items[..|items| - 1];
  }

  /** No repetition is lost or invented by the aggregation, whatever the merge test. */
  lemma {:induction false} AccumulatePreservesTotal(items: seq<Record>, sameDay: (int, int) -> bool)
    requires |items| > 0
    ensures Total(Accumulate(items, sameDay)) == Total(items)
    decreases |items|
  {
    if |items| > 1 {
      var prefix := items[..|items| - 1];
      var item := items[|items| - 1];
      var buckets := Accumulate(prefix, sameDay);
      AccumulatePreservesTotal(prefix, sameDay);
      assert items == prefix + [item];
      TotalAppend(prefix, item);
      if sameDay(buckets[|buckets| - 1].createdAt, item.createdAt) {
        TotalUpdateLast(buckets, item.count);
      } else {
        TotalAppend(buckets, item);
      }
    } else {
      assert items[..0] == [];
    }
  }

  /** No two neighbours of a list of records pass the merge test. */
  predicate Separated(items: seq<Record>, sameDay: (int, int) -> bool)
  {
    forall k :: 0 <= k < |items| - 1 ==> !sameDay(items[k].createdAt, items[k + 1].createdAt)
  }

  /** Consecutive buckets always fail the merge test between their timestamps. */
  lemma {:induction false} AccumulateSeparatesBuckets(items: seq<Record>, sameDay: (int, int) -> bool)
    requires |items| > 0
    ensures Separated(Accumulate(items, sameDay), sameDay)
    decreases |items|
  {
    if |items| > 1 {
      var prefix := items[..|items| - 1];
      AccumulateSeparatesBuckets(prefix, sameDay);
      var buckets := Accumulate(prefix, sameDay);
      var r := Accumulate(items, sameDay);
      var item := items[|items| - 1];
      forall k | 0 <= k < |r| - 1
        ensures !sameDay(r[k].createdAt, r[k + 1].createdAt)
      {
        if k + 1 < |buckets| {
          assert r[k].createdAt == buckets[k].createdAt && r[k + 1].createdAt == buckets[k + 1].createdAt;
        }
      }
    }
  }

  /** A history none of whose neighbours pass the merge test comes back as it is. */
  lemma {:induction false} AccumulateKeepsSeparatedItems(items: seq<Record>, sameDay: (int, int) -> bool)
    requires |items| > 0
    requires Separated(items, sameDay)
    ensures Accumulate(items, sameDay) == items
    decreases |items|
  {
    if |items| > 1 {
      var prefix := items[..|items| - 1];
      AccumulateKeepsSeparatedItems(prefix, sameDay);
      assert items == prefix + [items[|items| - 1]];
    }
  }

  /** The records of a list of segments, one segment after the other. */
  function Concat(segments: seq<seq<Record>>): seq<Record>
  {
    if segments == [] then [] else Concat(segments[..|segments| - 1]) + segments[|segments| - 1]
  }

  /** Reference definition of how the aggregation groups the records, from the merge test
      alone: a record joins the open segment when it passes the test against the segment's
      first record, and otherwise opens a segment of its own. */
  function Segments(items: seq<Record>, sameDay: (int, int) -> bool): (segments: seq<seq<Record>>)
    requires |items| > 0
    ensures 0 < |segments| <= |items|
    ensures forall k :: 0 <= k < |segments| ==> |segments[k]| > 0
    decreases |items|
  {
    if |items| == 1 then [[items[0]]]
    else
      var segments := Segments(items[..|items| - 1], sameDay);
      var open := segments[|segments| - 1];
      var item := items[|items| - 1];
      if sameDay(open[0].createdAt, item.createdAt)
      then segments[|segments| - 1 := open + [item]]
      else segments + [[item]]
  }

  lemma ConcatAppend(segments: seq<seq<Record>>, segment: seq<Record>)
    ensures Concat(segments + [segment]) == Concat(segments) + segment
  {
    assert (segments + [segment])[..|segments|] == segments;
  }

  /** A record added to the last segment lands at the end of the records. */
  lemma ConcatGrowLast(segments: seq<seq<Record>>, item: Record)
    requires |segments| > 0
    ensures var last := |segments| - 1;
      Concat(segments[last := segments[last] + [item]]) == Concat(segments) + [item]
  {
    var last := |segments| - 1;
    var closed := segments[..last];
    assert segments == closed + [segments[last]];
    assert segments[last := segments[last] + [item]] == closed + [segments[last] + [item]];
    ConcatAppend(closed, segments[last]);
    ConcatAppend(closed, segments[last] + [item]);
  }

  /** One step of the partition: adding a record to the input adds it to the end of the
      records of the segments, whichever way it is grouped. */
  lemma PartitionStep(segments: seq<seq<Record>>, before: seq<seq<Record>>, prefix: seq<Record>, item: Record)
    requires |before| > 0 && Concat(before) == prefix
    requires segments == before[|before| - 1 := before[|before| - 1] + [item]] || segments == before + [[item]]
    ensures Concat(segments) == prefix + [item]
  {
    if segments == before + [[item]] {
      ConcatAppend(before, [item]);
    } else {
      ConcatGrowLast(before, item);
    }
  }

  /** The segments cut the input into consecutive pieces: joined up, they give it back. */
  lemma {:induction false} SegmentsPartition(items: seq<Record>, sameDay: (int, int) -> bool)
    requires |items| > 0
    ensures Concat(Segments(items, sameDay)) == items
    decreases |items|
  {
    var n := |items|;
    if n == 1 {
      ConcatAppend([], [items[0]]);
      assert [] + [[items[0]]] == [[items[0]]];
    } else {
      var prefix := items[..n - 1];
      SegmentsPartition(prefix, sameDay);
      assert items == prefix + [items[n - 1]];
      PartitionStep(Segments(items, sameDay), Segments(prefix, sameDay), prefix, items[n - 1]);
    }
  }

  /** Every record of a segment passes the merge test against the segment's first record. */
  lemma {:induction false} SegmentMembersPass(items: seq<Record>, sameDay: (int, int) -> bool, k: nat, j: nat)
    requires |items| > 0
    requires k < |Segments(items, sameDay)| && 0 < j < |Segments(items, sameDay)[k]|
    ensures var segment := Segments(items, sameDay)[k];
      sameDay(segment[0].createdAt, segment[j].createdAt)
    decreases |items|
  {
    var n := |items|;
    if n > 1 {
      var prefix := items[..n - 1];
      var before := Segments(prefix, sameDay);
      var segments := Segments(items, sameDay);
      if k < |before| && j < |before[k]| {
        SegmentMembersPass(prefix, sameDay, k, j);
        assert segments[k][0] == before[k][0] && segments[k][j] == before[k][j];
      }
    }
  }

  /** The first record of every segment after the first fails the merge test against the
      first record of the segment before it. */
  lemma {:induction false} SegmentOpenersFail(items: seq<Record>, sameDay: (int, int) -> bool, k: nat)
    requires |items| > 0
    requires 0 < k < |Segments(items, sameDay)|
    ensures var segments := Segments(items, sameDay);
      !sameDay(segments[k - 1][0].createdAt, segments[k][0].createdAt)
    decreases |items|
  {
    var n := |items|;
    var prefix := items[..n - 1];
    var before := Segments(prefix, sameDay);
    var segments := Segments(items, sameDay);
    if k < |before| {
      SegmentOpenersFail(prefix, sameDay, k);
      assert segments[k - 1][0] == before[k - 1][0] && segments[k][0] == before[k][0];
    }
  }

  /** The bucket a segment makes: stamped with its first record's timestamp, holding the sum
      of its counts. */
  function SegmentBucket(segment: seq<Record>): Record
    requires |segment| > 0
  {
    Record(Total(segment), segment[0].createdAt)
  }

  /** Reference definition of the aggregation: one bucket per segment, in order. */
  function Buckets(items: seq<Record>, sameDay: (int, int) -> bool): seq<Record>
    requires |items| > 0
  {
    var segments := Segments(items, sameDay);
    seq(|segments|, k requires 0 <= k < |segments| => SegmentBucket(segments[k]))
  }

  /** Bucket by bucket, the aggregation is the reference one. */
  lemma {:induction false} AccumulateBucketAt(items: seq<Record>, sameDay: (int, int) -> bool, k: nat)
    requires |items| > 0
    ensures |Accumulate(items, sameDay)| == |Segments(items, sameDay)|
    ensures k < |Segments(items, sameDay)| ==>
      Accumulate(items, sameDay)[k] == SegmentBucket(Segments(items, sameDay)[k])
    decreases |items|
  {
    var n := |items|;
    if n == 1 {
      TotalAppend([], items[0]);
      assert [] + [items[0]] == [items[0]];
    } else {
      var prefix := items[..n - 1];
      var item := items[n - 1];
      var before := Segments(prefix, sameDay);
      var last := |before| - 1;
      AccumulateBucketAt(prefix, sameDay, last);
      if k < last {
        AccumulateBucketAt(prefix, sameDay, k);
      } else if k == last {
        TotalAppend(before[last], item);
      } else {
        TotalAppend([], item);
        assert [] + [item] == [item];
      }
    }
  }

  /** For any merge test, the aggregation is the reference one: one bucket per segment,
      stamped with the segment's first timestamp and counting the sum of its counts. */
  lemma AccumulateIsBuckets(items: seq<Record>, sameDay: (int, int) -> bool)
    requires |items| > 0
    ensures Accumulate(items, sameDay) == Buckets(items, sameDay)
  {
    var r := Accumulate(items, sameDay);
    var expected := Buckets(items, sameDay);
    AccumulateBucketAt(items, sameDay, 0);
    forall k | 0 <= k < |r|
      ensures r[k] == expected[k]
    {
      AccumulateBucketAt(items, sameDay, k);
    }
  }

  /** With calendar-day merging, every record of a bucket lies on the bucket's day, and the
      record that opens the next bucket does not. */
  lemma CalendarDayBucketHoldsItsDay(items: seq<Record>, k: nat, j: nat)
    requires |items| > 0
    requires k < |Segments(items, SameCalendarDay)| && j < |Segments(items, SameCalendarDay)[k]|
    ensures var r := Accumulate(items, SameCalendarDay);
      var segments := Segments(items, SameCalendarDay);
      && k < |r|
      && Day(segments[k][j].createdAt) == Day(r[k].createdAt)
      && (k + 1 < |segments| ==> Day(segments[k + 1][0].createdAt) != Day(r[k].createdAt))
  {
    var segments := Segments(items, SameCalendarDay);
    AccumulateBucketAt(items, SameCalendarDay, k);
    if j > 0 {
      SegmentMembersPass(items, SameCalendarDay, k, j);
    }
    if k + 1 < |segments| {
      SegmentOpenersFail(items, SameCalendarDay, k + 1);
    }
  }

  /** With calendar-day merging, sessions of 5 and 3 on one day followed by a session of 2 on
      the next give two buckets, of 8 and 2. */
  lemma CalendarDayGroupsByDay()
    ensures Accumulate([Record(5, 0), Record(3, 0), Record(2, SecondsPerDay)], SameCalendarDay)
         == [Record(8, 0), Record(2, SecondsPerDay)]
  {
    var items := [Record(5, 0), Record(3, 0), Record(2, SecondsPerDay)];
    assert items[..2] == [Record(5, 0), Record(3, 0)];
    assert items[..2][..1] == [Record(5, 0)];
    assert Accumulate(items[..2], SameCalendarDay) == [Record(8, 0)];
    assert Day(0) != Day(SecondsPerDay);
  }

  /** As written, the merge test never holds, so every record is its own bucket: the result
      is a copy of the input. */
  lemma IdentityTestCopiesInput(items: seq<Record>)
    requires |items| > 0
    ensures Accumulate(items, IdentityTest) == items
  {
    AccumulateKeepsSeparatedItems(items, IdentityTest);
  }

  /** As written, a query that selects anything returns its selection unchanged. */
  lemma AsWrittenQueryReturnsSelection(records: seq<Record>, days: Option<int>, now: int)
    requires |Selected(records, days, now)| > 0
    ensures Accumulate(Selected(records, days, now), IdentityTest) == Selected(records, days, now)
  {
    IdentityTestCopiesInput(Selected(records, days, now));
  }

  /** As written, two sessions on one day stay two buckets. */
  lemma IdentityTestSplitsSameDay(d: int)
    ensures Accumulate([Record(5, d), Record(3, d)], IdentityTest) == [Record(5, d), Record(3, d)]
  {
    IdentityTestCopiesInput([Record(5, d), Record(3, d)]);
  }

  /** With the calendar-day test, consecutive buckets lie on different days. */
  lemma CalendarDayBucketsDiffer(items: seq<Record>)
    requires |items| > 0
    ensures var r := Accumulate(items, SameCalendarDay);
      forall k :: 0 <= k < |r| - 1 ==> Day(r[k].createdAt) != Day(r[k + 1].createdAt)
  {
    AccumulateSeparatesBuckets(items, SameCalendarDay);
  }

  /** With the calendar-day test, two sessions on one day make one bucket with the sum. */
  lemma CalendarDayMergesSameDay(d: int)
    ensures Accumulate([Record(5, d), Record(3, d)], SameCalendarDay) == [Record(8, d)]
  {
    assert [Record(5, d), Record(3, d)][..1] == [Record(5, d)];
  }

  /** With the calendar-day test, sessions on consecutive days stay apart, in order. */
  lemma CalendarDayKeepsNextDay(d: int)
    ensures Accumulate([Record(2, d), Record(4, d + SecondsPerDay)], SameCalendarDay)
         == [Record(2, d), Record(4, d + SecondsPerDay)]
  {
    DayShift(d, 1);
    assert [Record(2, d), Record(4, d + SecondsPerDay)][..1] == [Record(2, d)];
  }

  /** Records in the order they were appended, oldest first. */
  predicate Chronological(items: seq<Record>)
  {
    forall i, j :: 0 <= i < j < |items| ==> items[i].createdAt <= items[j].createdAt
  }

  /** On a chronological history, the calendar-day buckets come out in strictly increasing
      day order, so each day has at most one bucket. */
  lemma {:induction false} CalendarDayBucketsAscend(items: seq<Record>)
    requires |items| > 0 && Chronological(items)
    ensures var r := Accumulate(items, SameCalendarDay);
      && (forall k :: 0 <= k < |r| - 1 ==> Day(r[k].createdAt) < Day(r[k + 1].createdAt))
      && r[|r| - 1].createdAt <= items[|items| - 1].createdAt
    decreases |items|
  {
    if |items| > 1 {
      var prefix := items[..|items| - 1];
      var item := items[|items| - 1];
      CalendarDayBucketsAscend(prefix);
      var buckets := Accumulate(prefix, SameCalendarDay);
      var seed := buckets[|buckets| - 1];
      assert seed.createdAt <= item.createdAt;
      DayMonotone(seed.createdAt, item.createdAt);
    }
  }

  /** The whole backfilled history aggregates to itself: 15 buckets of count 0. */
  lemma BackfillAggregatesToItself(today: int)
    ensures Accumulate(Backfill(today), SameCalendarDay) == Backfill(today)
  {
    BackfillSpansFifteenDays(today);
    AccumulateKeepsSeparatedItems(Backfill(today), SameCalendarDay);
  }

  /** `_accumulate_by_date` with the merge test as a parameter; `previous` is the timestamp
      of the last bucket's first record. */
  method AccumulateByDate(items: seq<Record>, sameDay: (int, int) -> bool) returns (result: seq<Record>)
    requires |items| > 0
    ensures result == Accumulate(items, sameDay)
  {
    var first := items[0];
    result := [Record(first.count, first.createdAt)];
    var previous := first.createdAt;
    assert items[..1] == [first];
    for i := 1 to |items|
      invariant result == Accumulate(items[..i], sameDay)
      invariant previous == result[|result| - 1].createdAt
    {
      assert items[..i + 1][..i] == items[..i];
      var current := items[i].createdAt;
      if sameDay(previous, current) {
        var last := result[|result| - 1];
        result := result[|result| - 1 := last.(count := last.count + items[i].count)];
      } else {
        result := result + [Record(items[i].count, items[i].createdAt)];
        previous := current;
      }
    }
    assert items[..|items|] == items;
  }

  // ---------------------------------------------------------------------------------------
  // The store

  /** The records a query aggregates: all of them, or those newer than `days` days. */
  function Selected(records: seq<Record>, days: Option<int>, now: int): seq<Record>
  {
    match days
    case None => records
    case Some(d) => Filter(records, Cutoff(now, d))
  }

  /** The history file: whether it exists, and the records it holds. */
  class HistoryFile {
    var present: bool
    var records: seq<Record>

    constructor (present: bool, records: seq<Record>)
      ensures this.present == present && this.records == records
    {
      this.present := present;
      this.records := records;
    }
  }

  class Datastore {
    const file: HistoryFile

    ghost predicate Valid()
      reads this, file
    {
      file.present
    }

    /** `__init__`: create the file with the backfill when it does not exist, and leave an
        existing file as it is. */
    constructor (file: HistoryFile, today: int)
      modifies file
      ensures this.file == file && Valid()
      ensures old(file.present) ==> file.records == old(file.records)
      ensures !old(file.present) ==> file.records == Backfill(today)
    {
      this.file := file;
      new;
      if !file.present {
        var items := [];
        for i := 0 to BackfillDays
          invariant items == Backfill(today)[..i]
        {
          items := items + [Record(0, today - (14 - i) * SecondsPerDay)];
        }
        file.records := items;
        file.present := true;
      }
    }

    /** `add_item`: read the whole list, append the record, write the whole list back. */
    method AddItem(item: Record)
      requires Valid()
      modifies file
      ensures Valid()
      ensures file.records == old(file.records) + [item]
    {
      var items := file.records;
      items := items + [item];
      file.records := items;
    }

    /** `get_items`: filter when a number of days is given, then aggregate under the merge
        test `sameDay` (`IdentityTest` as the source is written, `SameCalendarDay` as it is
        meant); an empty selection is an error, as indexing its first record is in the source. */
    method GetItems(days: Option<int>, now: int, sameDay: (int, int) -> bool)
      returns (r: Result<seq<Record>, QueryError>)
      requires Valid()
      ensures var selected := Selected(file.records, days, now);
        && (r.Err? <==> selected == [])
        && (r.Ok? ==> |selected| > 0 && r.value == Accumulate(selected, sameDay))
    {
      var items := file.records;
      if days.Some? {
        items := FilterByDate(items, days.value, now);
      }
      if items == [] {
        return Err(EmptySelection);
      }
      var buckets := AccumulateByDate(items, sameDay);
      return Ok(buckets);
    }
  }
}
