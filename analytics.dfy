/** The in-memory part of `AnalyticsData`
    (src-tauri/src/modules/storage/analytics.rs): one record per calendar day,
    kept sorted by date and limited to the last 30, plus totals derived from
    them. */
module Analytics {
  import opened Wrappers
  import opened Seqs
  import opened Strings
  import Sorting

  /** Per-day totals; `date` is the "YYYY-MM-DD" text. */
  datatype DailyStats = DailyStats(date: string, recordings: nat, durationMs: nat, charactersTranscribed: nat)

  const KeptDays: nat := 30
  const WeekDays: nat := 7

  /** The comparator `a.date.cmp(&b.date)`. */
  predicate ByDate(a: DailyStats, b: DailyStats)
  {
    LexLe(a.date, b.date)
  }

  lemma ByDateIsPreorder()
    ensures Sorting.TotalPreorder(ByDate)
  {
    forall a: DailyStats, b: DailyStats ensures ByDate(a, b) || ByDate(b, a) {
      LexLeTotal(a.date, b.date);
    }
    forall a: DailyStats, b: DailyStats, c: DailyStats | ByDate(a, b) && ByDate(b, c) ensures ByDate(a, c) {
      LexLeTransitive(a.date, b.date, c.date);
    }
  }

  /** `day` with one more recording of the given length and size. */
  function Bumped(day: DailyStats, durationMs: nat, characters: nat): DailyStats
  {
    day.(recordings := day.recordings + 1,
         durationMs := day.durationMs + durationMs,
         charactersTranscribed := day.charactersTranscribed + characters)
  }

  /** The first part of `update_with_recording`: bump the first record dated
      `today`, or append a fresh one. */
  function Upserted(days: seq<DailyStats>, today: string, durationMs: nat, characters: nat): seq<DailyStats>
  {
    match FirstIndex(days, (d: DailyStats) => d.date == today)
    case Some(k) => days[k := Bumped(days[k], durationMs, characters)]
    case None => days + [DailyStats(today, 1, durationMs, characters)]
  }

  /** The days after `update_with_recording`: upsert, sort by date, keep the
      last 30. */
  function Updated(days: seq<DailyStats>, today: string, durationMs: nat, characters: nat): seq<DailyStats>
  {
    KeepLast(Sorting.Sort(Upserted(days, today, durationMs, characters), ByDate), KeptDays)
  }

  /** When some record is dated today, only the first such record changes,
      by one recording, `durationMs` and `characters`. */
  lemma UpsertExistingDay(days: seq<DailyStats>, today: string, durationMs: nat, characters: nat, k: nat)
    requires k < |days| && days[k].date == today
    requires forall j :: 0 <= j < k ==> days[j].date != today
    ensures var r := Upserted(days, today, durationMs, characters);
      && |r| == |days|
      && r[k].date == today
      && r[k].recordings == days[k].recordings + 1
      && r[k].durationMs == days[k].durationMs + durationMs
      && r[k].charactersTranscribed == days[k].charactersTranscribed + characters
      && forall j :: 0 <= j < |days| && j != k ==> r[j] == days[j]
  {
  }

  /** When no record is dated today, exactly one new record `{today, 1, d, c}`
      is appended. */
  lemma UpsertNewDay(days: seq<DailyStats>, today: string, durationMs: nat, characters: nat)
    requires forall j :: 0 <= j < |days| ==> days[j].date != today
    ensures Upserted(days, today, durationMs, characters) == days + [DailyStats(today, 1, durationMs, characters)]
  {
  }

  /** Sum of `recordings`. */
  function SumRecordings(days: seq<DailyStats>): nat
  {
    if days == [] then 0 else SumRecordings(days[..|days| - 1]) + days[|days| - 1].recordings
  }

  lemma {:induction false} SumRecordingsUpdate(days: seq<DailyStats>, k: nat, day: DailyStats)
    requires k < |days|
    ensures SumRecordings(days[k := day]) + days[k].recordings == SumRecordings(days) + day.recordings
  {
    var n := |days|;
    var u := days[k := day];
    assert u[..n - 1] == if k < n - 1 then days[..n - 1][k := day] else days[..n - 1];
    if k < n - 1 {
      SumRecordingsUpdate(days[..n - 1], k, day);
    }
  }

  lemma {:induction false} SumRecordingsPermutation(a: seq<DailyStats>, b: seq<DailyStats>)
    requires multiset(a) == multiset(b)
    ensures SumRecordings(a) == SumRecordings(b)
    decreases |a|
  {
    if a != [] {
      var x := a[|a| - 1];
      assert x in multiset(b);
      var i :| 0 <= i < |b| && b[i] == x;
      RemoveAtPermutation(a, b, i);
      SumRecordingsPermutation(a[..|a| - 1], RemoveAt(b, i));
      SumRecordingsRemove(b, i);
    }
  }

  lemma {:induction false} SumRecordingsRemove(b: seq<DailyStats>, i: nat)
    requires i < |b|
    ensures SumRecordings(b) == SumRecordings(b[..i] + b[i + 1..]) + b[i].recordings
    decreases |b|
  {
    var n := |b|;
    if i < n - 1 {
      SumRecordingsRemove(b[..n - 1], i);
      assert b[..n - 1][..i] + b[..n - 1][i + 1..] == (b[..i] + b[i + 1..])[..n - 2];
      assert (b[..i] + b[i + 1..])[n - 2] == b[n - 1];
    } else {
      assert b[..i] + b[i + 1..] == b[..n - 1];
    }
  }

  /** Before trimming, the update adds exactly one recording to the total. */
  lemma UpsertAddsOneRecording(days: seq<DailyStats>, today: string, durationMs: nat, characters: nat)
    ensures SumRecordings(Sorting.Sort(Upserted(days, today, durationMs, characters), ByDate)) == SumRecordings(days) + 1
  {
    var u := Upserted(days, today, durationMs, characters);
    Sorting.SortPermutation(u, ByDate);
    SumRecordingsPermutation(Sorting.Sort(u, ByDate), u);
    match FirstIndex(days, (d: DailyStats) => d.date == today)
    case Some(k) =>
      SumRecordingsUpdate(days, k, Bumped(days[k], durationMs, characters));
    case None =>
      assert (days + [DailyStats(today, 1, durationMs, characters)])[..|days|] == days;
  }

  /** After the update the days are sorted by date, at most 30 remain, and
      they are the last 30 of the sorted list. */
  lemma UpdatedSortedAndTrimmed(days: seq<DailyStats>, today: string, durationMs: nat, characters: nat)
    ensures var sorted := Sorting.Sort(Upserted(days, today, durationMs, characters), ByDate);
      var r := Updated(days, today, durationMs, characters);
      && Sorting.SortedBy(r, ByDate)
      && |r| == Min(|sorted|, KeptDays)
      && r == sorted[|sorted| - |r|..]
  {
    var sorted := Sorting.Sort(Upserted(days, today, durationMs, characters), ByDate);
    ByDateIsPreorder();
    Sorting.SortSorted(Upserted(days, today, durationMs, characters), ByDate);
    var r := Updated(days, today, durationMs, characters);
    Sorting.SortedSuffix(sorted, |sorted| - |r|, ByDate);
  }

  /** The window `calculate_analytics` averages over: the last `min(7, len)` days. */
  function LastWeek(days: seq<DailyStats>): (w: seq<DailyStats>)
    ensures |w| == Min(|days|, WeekDays)
    ensures w == days[|days| - |w|..]
  {
    if |days| >= WeekDays then days[|days| - WeekDays..] else days
  }

  function WeeklyAverage(days: seq<DailyStats>): real
    requires days != []
  {
    SumRecordings(LastWeek(days)) as real / |LastWeek(days)| as real
  }

  /** `max_by_key(recordings)`: the index of a day with the most recordings,
      the last one on ties. */
  predicate IsLastBusiest(days: seq<DailyStats>, k: nat)
  {
    k < |days|
    && (forall j :: 0 <= j < |days| ==> days[j].recordings <= days[k].recordings)
    && (forall j :: k < j < |days| ==> days[j].recordings < days[k].recordings)
  }

  /** The scan behind `max_by_key`: keeps the later element when keys are equal. */
  method LastBusiest(days: seq<DailyStats>) returns (k: nat)
    requires days != []
    ensures IsLastBusiest(days, k)
  {
    k := 0;
    var i := 1;
    while i < |days|
      invariant 1 <= i <= |days| && k < i
      invariant forall j :: 0 <= j < i ==> days[j].recordings <= days[k].recordings
      invariant forall j :: k < j < i ==> days[j].recordings < days[k].recordings
    {
      if days[i].recordings >= days[k].recordings {
        k := i;
      }
      i := i + 1;
    }
  }

  class AnalyticsData {
    var dailyStats: seq<DailyStats>
    var weeklyAverage: real
    var monthlyTotal: nat
    var mostActiveDay: string
    var peakUsageHour: nat

    /** `AnalyticsData::default()`. */
    constructor ()
      ensures dailyStats == [] && weeklyAverage == 0.0 && monthlyTotal == 0
      ensures mostActiveDay == "Monday" && peakUsageHour == 9
    {
      dailyStats := [];
      weeklyAverage := 0.0;
      monthlyTotal := 0;
      mostActiveDay := "Monday";
      peakUsageHour := 9;
    }

    /** The derived totals agree with `dailyStats`. */
    ghost predicate Summarised()
      reads this
    {
      dailyStats != []
      && weeklyAverage == WeeklyAverage(dailyStats)
      && monthlyTotal == SumRecordings(dailyStats)
      && exists k: nat :: IsLastBusiest(dailyStats, k) && mostActiveDay == dailyStats[k].date
    }

    /** `update_with_recording`, with today's date passed in (the saving to
        disk that follows is not modelled). */
    method UpdateWithRecording(today: string, durationMs: nat, characters: nat)
      modifies this
      ensures dailyStats == Updated(old(dailyStats), today, durationMs, characters)
      ensures Summarised()
      ensures peakUsageHour == old(peakUsageHour)
    {
      var days := dailyStats;
      var found := FirstIndex(days, (d: DailyStats) => d.date == today);
      if found.Some? {
        var k := found.value;
        days := days[k := Bumped(days[k], durationMs, characters)];
      } else {
        days := days + [DailyStats(today, 1, durationMs, characters)];
      }
      assert days == Upserted(old(dailyStats), today, durationMs, characters);
      days := Sorting.Sort(days, ByDate);
      if |days| > KeptDays {
        days := days[|days| - KeptDays..];
      }
      assert days == Updated(old(dailyStats), today, durationMs, characters);
      dailyStats := days;
      CalculateAnalytics();
    }

    /** `calculate_analytics`: recomputes the totals, or leaves every field
        alone when there are no days. */
    method CalculateAnalytics()
      modifies this
      ensures dailyStats == old(dailyStats) && peakUsageHour == old(peakUsageHour)
      ensures old(dailyStats) == [] ==>
        weeklyAverage == old(weeklyAverage) && monthlyTotal == old(monthlyTotal) && mostActiveDay == old(mostActiveDay)
      ensures old(dailyStats) != [] ==> Summarised()
    {
      if dailyStats == [] {
        return;
      }
      var week := LastWeek(dailyStats);
      weeklyAverage := SumRecordings(week) as real / |week| as real;
      monthlyTotal := SumRecordings(dailyStats);
      var k := LastBusiest(dailyStats);
      mostActiveDay := dailyStats[k].date;
    }
  }
}
