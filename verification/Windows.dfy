/** Query windows, pruning and the elapsed-hour timeline of the Today range
    (internal/ego/handler.go, internal/ego/storage.go). */
module Windows {
  import opened Models
  import opened Rounding
  import opened Analytics
  import opened Queries

  const MIN_INT64: int := -0x8000_0000_0000_0000
  const MAX_INT64: int := 0x7fff_ffff_ffff_ffff

  type Int64 = x: int | MIN_INT64 <= x <= MAX_INT64

  const TODAY_MAX_HOURS := 26

  // ----- Reading the window of a request ----------------------------------

  function CalculateMinTimestamp(range: string, now: int): int {
    if range == "1h" then now - HOUR_MS
    else if range == "24h" then now - 24 * HOUR_MS
    else if range == "7d" then now - 7 * 24 * HOUR_MS
    else if range == "30d" then now - 30 * 24 * HOUR_MS
    else if range == "all" then 0
    else now - 24 * HOUR_MS
  }

  /** `start` and `end` are the parsed parameters, `None` when they are missing or not 64-bit integers.
      `Err` is the 400 answer. */
  function ReadWindow(range: string, start: Option<Int64>, end: Option<Int64>, now: Int64): Result<Window> {
    if range != "today" then Ok(Window(CalculateMinTimestamp(range, now), 0))
    else if start.None? || end.None? || start.value <= 0 || end.value <= start.value
            || end.value - start.value > TODAY_MAX_HOURS * HOUR_MS then Err
    else Ok(Window(start.value, end.value))
  }

  /** A range shows the rows no older than it says, to the millisecond and without an upper end; "all" shows
      every row from the epoch on, and any other name stands for a day. */
  lemma RangeShows(range: string, now: Int64, e: EgoEvent)
    requires range != "today"
    ensures var w := ReadWindow(range, None, None, now);
            && w.Ok?
            && (range == "1h" ==> (InWindow(w.value, e) <==> now - e.timestamp <= 3_600_000))
            && (range == "24h" ==> (InWindow(w.value, e) <==> now - e.timestamp <= 86_400_000))
            && (range == "7d" ==> (InWindow(w.value, e) <==> now - e.timestamp <= 604_800_000))
            && (range == "30d" ==> (InWindow(w.value, e) <==> now - e.timestamp <= 2_592_000_000))
            && (range == "all" ==> (InWindow(w.value, e) <==> e.timestamp >= 0))
            && (range !in {"1h", "24h", "7d", "30d", "all"} ==> w == ReadWindow("24h", None, None, now))
  {
  }

  /** Bounds sent along matter to the Today range only. */
  lemma OtherRangesIgnoreBounds(range: string, start: Option<Int64>, end: Option<Int64>, now: Int64)
    requires range != "today"
    ensures ReadWindow(range, start, end, now) == ReadWindow(range, None, None, now)
  {
  }

  /** The Today range is answered exactly for positive, ordered bounds at most 93.6 million milliseconds
      apart, and then shows the rows from the first up to but without the second. */
  lemma TodayAccepts(start: Option<Int64>, end: Option<Int64>, now: Int64, e: EgoEvent)
    ensures ReadWindow("today", start, end, now).Ok? <==>
              start.Some? && end.Some? && 0 < start.value < end.value <= start.value + 93_600_000
    ensures ReadWindow("today", start, end, now).Ok? ==>
              (InWindow(ReadWindow("today", start, end, now).value, e) <==> start.value <= e.timestamp < end.value)
  {
  }

  // ----- Adjacent windows -------------------------------------------------

  ghost predicate Adds(c: Column, table: seq<EgoEvent>, provider: string, a: int, b: int, end: int) {
    Sum(c, Where(table, Window(a, b), provider)) + Sum(c, Where(table, Window(b, end), provider))
    == Sum(c, Where(table, Window(a, end), provider))
  }

  lemma {:induction false} AdjacentWindowsAdd(c: Column, table: seq<EgoEvent>, provider: string, a: int, b: int, end: int)
    requires a <= b && (end == 0 || b <= end) && b != 0
    ensures Adds(c, table, provider, a, b, end)
  {
    if table != [] {
      AdjacentWindowsAdd(c, table[..|table| - 1], provider, a, b, end);
      WhereLast(c, table, Window(a, b), provider);
      WhereLast(c, table, Window(b, end), provider);
      WhereLast(c, table, Window(a, end), provider);
    }
  }

  lemma WhereLast(c: Column, table: seq<EgoEvent>, w: Window, provider: string)
    requires table != []
    ensures var init, e := table[..|table| - 1], table[|table| - 1];
            Sum(c, Where(table, w, provider)) == Sum(c, Where(init, w, provider)) + (if Matches(w, provider, e) then Value(c, e) else 0)
  {
    var init, e := Where(table[..|table| - 1], w, provider), table[|table| - 1];
    assert (init + [e])[..|init|] == init;
  }

  /** Every column sum over [a, b) and [b, end) adds up to the one over [a, end), on every table, exactly
      when the boundary is not 0: a zero end means unbounded, so a window ending there reaches past it. */
  lemma WindowsAddUnlessBoundaryIsZero(a: int, b: int, end: int)
    requires a <= b && (end == 0 || b <= end)
    ensures b != 0 <==> forall c, table, provider :: Adds(c, table, provider, a, b, end)
  {
    if b != 0 {
      forall c, table, provider ensures Adds(c, table, provider, a, b, end) {
        AdjacentWindowsAdd(c, table, provider, a, b, end);
      }
    } else {
      var e := EgoEvent(0, "p", "m", "a", 0, 0, 0, 0, 0, 0, 0, "success", 0, false, 0, 0);
      WhereLast(Requests, [e], Window(a, b), "");
      WhereLast(Requests, [e], Window(b, end), "");
      WhereLast(Requests, [e], Window(a, end), "");
      assert [e][..0] == [];
      assert !Adds(Requests, [e], "", a, b, end);
    }
  }

  // ----- Pruning ----------------------------------------------------------

  /** DELETE ... WHERE timestamp < cutoff leaves these rows. */
  function Prune(table: seq<EgoEvent>, cutoff: int): seq<EgoEvent> {
    if table == [] then []
    else
      var init, e := Prune(table[..|table| - 1], cutoff), table[|table| - 1];
      if e.timestamp < cutoff then init else init + [e]
  }

  /** RowsAffected of that statement. */
  function PrunedCount(table: seq<EgoEvent>, cutoff: int): nat {
    if table == [] then 0
    else PrunedCount(table[..|table| - 1], cutoff) + (if table[|table| - 1].timestamp < cutoff then 1 else 0)
  }

  lemma {:induction false} PruneSplitsTable(table: seq<EgoEvent>, cutoff: int)
    ensures |Prune(table, cutoff)| + PrunedCount(table, cutoff) == |table|
    ensures forall e: EgoEvent :: multiset(Prune(table, cutoff))[e] == if e.timestamp < cutoff then 0 else multiset(table)[e]
  {
    if table != [] {
      var init, last := table[..|table| - 1], table[|table| - 1];
      PruneSplitsTable(init, cutoff);
      assert table == init + [last];
      forall e: EgoEvent
        ensures multiset(Prune(table, cutoff))[e] == if e.timestamp < cutoff then 0 else multiset(table)[e]
      {
        assert multiset(table)[e] == multiset(init)[e] + (if e == last then 1 else 0);
        assert multiset(Prune(init, cutoff) + [last])[e] == multiset(Prune(init, cutoff))[e] + (if e == last then 1 else 0);
      }
    }
  }

  lemma {:induction false} PruneFiltersWindow(table: seq<EgoEvent>, cutoff: int, w: Window, provider: string)
    ensures |Where(Prune(table, cutoff), w, provider)| <= |Where(table, w, provider)|
    ensures Where(Prune(table, cutoff), w, provider) == Where(table, w, provider)
            <==> forall e | e in table && Matches(w, provider, e) :: e.timestamp >= cutoff
    ensures |Where(Prune(table, cutoff), w, provider)| == |Where(table, w, provider)|
            ==> Where(Prune(table, cutoff), w, provider) == Where(table, w, provider)
  {
    if table != [] {
      var init, e := table[..|table| - 1], table[|table| - 1];
      PruneFiltersWindow(init, cutoff, w, provider);
      assert table == init + [e];
      assert (Prune(init, cutoff) + [e])[..|Prune(init, cutoff)|] == Prune(init, cutoff);
    }
  }

  /** A query whose window starts at or after the cutoff cannot tell that rows were pruned. */
  lemma PruneInvisibleToLaterWindows(table: seq<EgoEvent>, cutoff: int, w: Window, provider: string, prices: map<string, ModelPricing>,
                                     bucket: EgoEvent -> int, today: bool)
    requires cutoff <= w.start
    ensures forall stats :: IsSummary(Prune(table, cutoff), prices, w, provider, stats) <==> IsSummary(table, prices, w, provider, stats)
    ensures forall points :: IsTimeline(Prune(table, cutoff), w, bucket, today, provider, points) <==> IsTimeline(table, w, bucket, today, provider, points)
    ensures forall list :: IsProviderRankings(Prune(table, cutoff), w, list) <==> IsProviderRankings(table, w, list)
    ensures forall list :: IsModelRankings(Prune(table, cutoff), prices, w, provider, list) <==> IsModelRankings(table, prices, w, provider, list)
    ensures forall list :: IsAccountRankings(Prune(table, cutoff), w, provider, list) <==> IsAccountRankings(table, w, provider, list)
  {
    PruneFiltersWindow(table, cutoff, w, provider);
    PruneFiltersWindow(table, cutoff, w, "");
  }

  // ----- The Today timeline -----------------------------------------------

  /** Every 64-bit step SQLite and the handler take for a row of an accepted Today window stays in range,
      and the row falls in the hour its bucket names. */
  lemma TodayBucketOfRow(start: Option<Int64>, end: Option<Int64>, now: Int64, w: Window, provider: string, e: EgoEvent)
    requires ReadWindow("today", start, end, now) == Ok(w) && Matches(w, provider, e)
    ensures var elapsed := e.timestamp - w.start;
            var hours := TruncDiv(elapsed, HOUR_MS);
            && MIN_INT64 <= w.end - w.start <= MAX_INT64
            && MIN_INT64 <= elapsed <= MAX_INT64
            && MIN_INT64 <= hours * HOUR_MS <= MAX_INT64
            && MIN_INT64 <= w.start + hours * HOUR_MS <= MAX_INT64
            && TodayBucket(w.start)(e) == w.start + hours * HOUR_MS
            && 0 <= hours < TODAY_MAX_HOURS
    ensures TodayBucket(w.start)(e) <= e.timestamp < TodayBucket(w.start)(e) + HOUR_MS
    ensures w.start <= TodayBucket(w.start)(e) < w.end
    ensures (TodayBucket(w.start)(e) - w.start) % HOUR_MS == 0
  {
    var hours := (e.timestamp - w.start) / HOUR_MS;
    assert (hours * HOUR_MS) % HOUR_MS == 0;
  }

  /** The part of the window that belongs to one hourly bucket. */
  function HourWindow(w: Window, bucket: int): Window {
    Window(bucket, if bucket + HOUR_MS < w.end then bucket + HOUR_MS else w.end)
  }

  lemma {:induction false} BucketRowsAreHourRows(table: seq<EgoEvent>, w: Window, provider: string, bucket: int)
    requires 0 < w.start <= bucket < w.end && (bucket - w.start) % HOUR_MS == 0
    ensures RowsWithKey(Where(table, w, provider), TodayBucket(w.start), bucket) == Where(table, HourWindow(w, bucket), provider)
  {
    if table != [] {
      var init, e := table[..|table| - 1], table[|table| - 1];
      BucketRowsAreHourRows(init, w, provider, bucket);
      if Matches(w, provider, e) {
        var kept := Where(init, w, provider);
        assert (kept + [e])[..|kept|] == kept;
        SameHour(w.start, bucket, e.timestamp);
      }
    }
  }

  lemma SameHour(start: int, bucket: int, timestamp: int)
    requires start <= bucket && start <= timestamp && (bucket - start) % HOUR_MS == 0
    ensures start + TruncDiv(timestamp - start, HOUR_MS) * HOUR_MS == bucket <==> bucket <= timestamp < bucket + HOUR_MS
  {
  }

  lemma TodayGroup(table: seq<EgoEvent>, start: Option<Int64>, end: Option<Int64>, now: Int64, w: Window, provider: string,
                   gs: seq<Group<int>>, g: Group<int>)
    requires ReadWindow("today", start, end, now) == Ok(w)
    requires IsGroupQuery(Where(table, w, provider), TodayBucket(w.start), gs) && g in gs
    ensures w.start <= g.key < w.end && (g.key - w.start) % HOUR_MS == 0
    ensures g.rows == Where(table, HourWindow(w, g.key), provider)
  {
    var rows, bucket := Where(table, w, provider), TodayBucket(w.start);
    RowsOfGroup(rows, bucket, gs, g);
    WhereMatches(table, w, provider);
    var e := g.rows[0];
    assert e in g.rows && Matches(w, provider, e) && bucket(e) == g.key;
    TodayBucketOfRow(start, end, now, w, provider, e);
    GroupsAreKeyClasses(rows, bucket, gs, g);
    BucketRowsAreHourRows(table, w, provider, g.key);
  }

  lemma EveryRowHasAGroup(rows: seq<EgoEvent>, bucket: EgoEvent -> int, gs: seq<Group<int>>, e: EgoEvent) returns (i: nat)
    requires IsGroupQuery(rows, bucket, gs) && e in rows
    ensures i < |gs| && gs[i].key == bucket(e)
  {
    var g := Group(bucket(e), RowsWithKey(rows, bucket, bucket(e)));
    RowsWithKeyHaveIt(rows, bucket, bucket(e));
    GroupsAreKeyClasses(rows, bucket, gs, g);
    i :| 0 <= i < |gs| && gs[i] == g;
  }

  lemma {:induction false} WhereMatches(table: seq<EgoEvent>, w: Window, provider: string)
    ensures forall e :: e in Where(table, w, provider) <==> e in table && Matches(w, provider, e)
  {
    if table != [] {
      WhereMatches(table[..|table| - 1], w, provider);
      assert table == table[..|table| - 1] + [table[|table| - 1]];
    }
  }

  lemma {:induction false} HoursApart(start: int, gs: seq<Group<int>>)
    requires Ascending(gs) && DistinctKeys(gs)
    requires forall i :: 0 <= i < |gs| ==> start <= gs[i].key && (gs[i].key - start) % HOUR_MS == 0
    ensures gs != [] ==> gs[|gs| - 1].key >= start + (|gs| - 1) * HOUR_MS
  {
    if |gs| > 1 {
      var n := |gs| - 1;
      HoursApart(start, gs[..n]);
      assert gs[n - 1].key < gs[n].key;
    }
  }

  /** An hour of the window [start, end), counted from its start. */
  ghost predicate HourOf(start: int, end: int, bucket: int) {
    start <= bucket < end && (bucket - start) % HOUR_MS == 0
  }

  /** A point names an hour of the window and counts exactly what the summary counts over that hour. */
  ghost predicate HourPoint(table: seq<EgoEvent>, w: Window, provider: string, p: TimelinePoint) {
    && p.timestamp == p.bucket
    && HourOf(w.start, w.end, p.bucket)
    && p.counts == CountersOf(Where(table, HourWindow(w, p.bucket), provider))
  }

  lemma TodayOrder(start: int, gs: seq<Group<int>>, end: int)
    requires Ascending(gs) && DistinctKeys(gs) && end - start <= TODAY_MAX_HOURS * HOUR_MS
    requires forall g | g in gs :: HourOf(start, end, g.key)
    ensures forall i, j :: 0 <= i < j < |gs| ==> gs[i].key < gs[j].key
    ensures |gs| <= TODAY_MAX_HOURS
  {
    assert forall i :: 0 <= i < |gs| ==> HourOf(start, end, gs[i].key);
    HoursApart(start, gs);
  }

  lemma TodayPoints(table: seq<EgoEvent>, start: Option<Int64>, end: Option<Int64>, now: Int64, w: Window, provider: string,
                    gs: seq<Group<int>>)
    requires ReadWindow("today", start, end, now) == Ok(w)
    requires IsGroupQuery(Where(table, w, provider), TodayBucket(w.start), gs) && Ascending(gs)
    ensures forall g | g in gs :: HourPoint(table, w, provider, PointOf(true)(g))
    ensures forall i, j :: 0 <= i < j < |gs| ==> gs[i].key < gs[j].key
    ensures |gs| <= TODAY_MAX_HOURS
  {
    forall g | g in gs
      ensures HourOf(w.start, w.end, g.key) && HourPoint(table, w, provider, PointOf(true)(g))
    {
      TodayGroup(table, start, end, now, w, provider, gs, g);
    }
    GroupKeysDistinct(Where(table, w, provider), TodayBucket(w.start), gs);
    TodayOrder(w.start, gs, w.end);
  }

  /** The points of a Today timeline are distinct hours of the window in ascending order, at most 26 of
      them; every row of the window is in one; and each point counts exactly what the summary counts
      over that hour. */
  lemma TodayTimeline(table: seq<EgoEvent>, start: Option<Int64>, end: Option<Int64>, now: Int64, w: Window, provider: string,
                      points: seq<TimelinePoint>)
    requires ReadWindow("today", start, end, now) == Ok(w)
    requires IsTimeline(table, w, TodayBucket(w.start), true, provider, points)
    ensures forall i :: 0 <= i < |points| ==> HourPoint(table, w, provider, points[i])
    ensures forall i, j :: 0 <= i < j < |points| ==> points[i].bucket < points[j].bucket
    ensures |points| <= TODAY_MAX_HOURS
    ensures forall e | e in Where(table, w, provider) :: exists i :: 0 <= i < |points| && points[i].bucket == TodayBucket(w.start)(e)
  {
    var rows, bucket := Where(table, w, provider), TodayBucket(w.start);
    var gs: seq<Group<int>> :| IsGroupQuery(rows, bucket, gs) && Ascending(gs) && points == Map(PointOf(true), gs);
    TodayPoints(table, start, end, now, w, provider, gs);
    forall i | 0 <= i < |points|
      ensures HourPoint(table, w, provider, points[i]) && points[i].bucket == gs[i].key
    {
      assert gs[i] in gs && points[i] == PointOf(true)(gs[i]);
    }
    forall e | e in rows ensures exists i :: 0 <= i < |points| && points[i].bucket == bucket(e) {
      var i := EveryRowHasAGroup(rows, bucket, gs, e);
      assert points[i].bucket == bucket(e);
    }
  }
}
