/** The analytics block of client/pages/EnhancedAdminDashboard.tsx: the
    sessions matching the period, profile and location filters, and the
    counts, averages, tallies, score ranges, hourly peaks, fourteen-day chart
    and rates computed from them. The clock and the local-time offset are
    parameters. */
module EnhancedAdminDashboard {
  import opened Common
  import opened UserSession
  import ExportUtils

  /** A session as this dashboard's records carry it: the training session
      plus the extra fields `user.device`, `user.location`,
      `progress.helpRequested` and `progress.attemptsCount`. The user fields
      are read only when the session has a user, and the progress fields
      only when it has progress. */
  datatype AnalyticsSession = AnalyticsSession(
    session: TrainingSession,
    device: Option<string>,
    location: Option<string>,
    helpRequested: bool,
    attemptsCount: Option<int>)

  /** The filter of `filteredSessions`; "all" disables the profile and the
      location test. A session without a user passes only the period test,
      and only when both other filters are "all". */
  predicate Matches(s: AnalyticsSession, now: int, periodDays: nat, profile: string, location: string)
    ensures Matches(s, now, periodDays, profile, location) ==> StartedSince(s.session, now - periodDays * DayMs)
    ensures Matches(s, now, periodDays, profile, location) && (profile != "all" || location != "all") ==> s.session.user.Some?
    ensures profile == "all" && location == "all" ==>
      (Matches(s, now, periodDays, profile, location) <==> StartedSince(s.session, now - periodDays * DayMs))
  {
    && StartedSince(s.session, now - periodDays * DayMs)
    && (profile == "all" || (s.session.user.Some? && s.session.user.value.profileType == profile))
    && (location == "all" || (s.session.user.Some? && s.location == Some(location)))
  }

  function FilterSessions(sessions: seq<AnalyticsSession>, now: int, periodDays: nat, profile: string, location: string): (r: seq<AnalyticsSession>)
    ensures |r| <= |sessions|
  {
    Filter(sessions, s => Matches(s, now, periodDays, profile, location))
  }

  /** A session is kept exactly when it started in the period and passes the
      profile and location filters. */
  lemma FilterKeepsExactly(sessions: seq<AnalyticsSession>, now: int, periodDays: nat, profile: string, location: string, s: AnalyticsSession)
    ensures s in FilterSessions(sessions, now, periodDays, profile, location)
      <==> s in sessions && Matches(s, now, periodDays, profile, location)
  {
    FilterMembership(sessions, s => Matches(s, now, periodDays, profile, location), s);
  }

  function Sessions(filtered: seq<AnalyticsSession>): (r: seq<TrainingSession>)
    ensures |r| == |filtered|
  {
    seq(|filtered|, i requires 0 <= i < |filtered| => filtered[i].session)
  }

  predicate IsActive(s: AnalyticsSession) { s.session.isActive }
  predicate IsCertified(s: AnalyticsSession) { Certified(s.session) }
  /** `progress?.helpRequested`: only a session with progress can count. */
  predicate AskedForHelp(s: AnalyticsSession)
    ensures AskedForHelp(s) ==> s.session.progress.Some?
    ensures s.session.progress.None? || !s.helpRequested ==> !AskedForHelp(s)
  {
    s.session.progress.Some? && s.helpRequested
  }

  /** `(progress?.attemptsCount || 1) > 1`: a missing or zero count is one
      attempt. */
  predicate Retried(s: AnalyticsSession)
    ensures Retried(s) <==> s.session.progress.Some? && s.attemptsCount.Some? && s.attemptsCount.value >= 2
  {
    s.session.progress.Some? && s.attemptsCount.Some? && s.attemptsCount.value != 0 && s.attemptsCount.value > 1
  }

  // Tallies: `user?.device`, `user?.language` and `user?.location`, each
  // with "unknown" for a missing or empty value.

  function DeviceKeys(filtered: seq<AnalyticsSession>): (r: seq<string>)
    ensures |r| == |filtered|
    ensures forall i :: 0 <= i < |r| ==> r[i] != ""
    ensures forall i :: 0 <= i < |r| && filtered[i].session.user.None? ==> r[i] == "unknown"
    ensures forall i :: 0 <= i < |r| && filtered[i].session.user.Some? && filtered[i].device.Some? && filtered[i].device.value != "" ==>
      r[i] == filtered[i].device.value
  {
    seq(|filtered|, i requires 0 <= i < |filtered| => OrElse(if filtered[i].session.user.Some? then filtered[i].device else None, "unknown"))
  }

  function LanguageKeys(filtered: seq<AnalyticsSession>): (r: seq<string>)
    ensures |r| == |filtered|
  {
    seq(|filtered|, i requires 0 <= i < |filtered| =>
      var u := filtered[i].session.user;
      OrElse(if u.Some? then Some(u.value.language) else None, "unknown"))
  }

  function LocationKeys(filtered: seq<AnalyticsSession>): (r: seq<string>)
    ensures |r| == |filtered|
    ensures forall i :: 0 <= i < |r| ==> r[i] != ""
    ensures forall i :: 0 <= i < |r| && filtered[i].session.user.None? ==> r[i] == "unknown"
    ensures forall i :: 0 <= i < |r| && filtered[i].session.user.Some? && filtered[i].location.Some? && filtered[i].location.value != "" ==>
      r[i] == filtered[i].location.value
  {
    seq(|filtered|, i requires 0 <= i < |filtered| => OrElse(if filtered[i].session.user.Some? then filtered[i].location else None, "unknown"))
  }

  // Score ranges.

  datatype ScoreRange = ScoreRange(range: string, min: int, max: int)

  const ScoreRanges: seq<ScoreRange> := [
    ScoreRange("90-100%", 90, 100),
    ScoreRange("80-89%", 80, 89),
    ScoreRange("70-79%", 70, 79),
    ScoreRange("60-69%", 60, 69),
    ScoreRange("<60%", 0, 59)
  ]

  function InRange(r: ScoreRange): int -> bool {
    x => r.min <= x <= r.max
  }

  /** `scoreDistribution`: per range, the number of scores inside it. */
  function ScoreDistribution(scores: seq<int>): (r: seq<(string, nat)>)
    ensures |r| == |ScoreRanges|
  {
    seq(|ScoreRanges|, i requires 0 <= i < |ScoreRanges| =>
      (ScoreRanges[i].range, CountWhere(scores, InRange(ScoreRanges[i]))))
  }

  function CountTotal(counts: seq<(string, nat)>): int {
    if counts == [] then 0 else counts[0].1 + CountTotal(counts[1..])
  }

  /** The ranges cover 0..100 without overlap, so every integer score in
      that interval is counted exactly once. */
  lemma {:induction false} ScoreRangesPartition(scores: seq<int>)
    requires forall i :: 0 <= i < |scores| ==> 0 <= scores[i] <= 100
    ensures CountTotal(ScoreDistribution(scores)) == |scores|
  {
    var d := ScoreDistribution(scores);
    var none: seq<(string, nat)> := [];
    assert d[4..][1..] == none && d[3..][1..] == d[4..] && d[2..][1..] == d[3..] && d[1..][1..] == d[2..];
    assert CountTotal(d[4..]) == d[4].1;
    assert CountTotal(d[3..]) == d[3].1 + d[4].1;
    assert CountTotal(d[2..]) == d[2].1 + d[3].1 + d[4].1;
    assert CountTotal(d[1..]) == d[1].1 + d[2].1 + d[3].1 + d[4].1;
    assert CountTotal(d) == d[0].1 + d[1].1 + d[2].1 + d[3].1 + d[4].1;
    BucketCounts(scores);
  }

  lemma {:induction false} BucketCounts(scores: seq<int>)
    requires forall i :: 0 <= i < |scores| ==> 0 <= scores[i] <= 100
    ensures CountWhere(scores, InRange(ScoreRanges[0])) + CountWhere(scores, InRange(ScoreRanges[1]))
      + CountWhere(scores, InRange(ScoreRanges[2])) + CountWhere(scores, InRange(ScoreRanges[3]))
      + CountWhere(scores, InRange(ScoreRanges[4])) == |scores|
  {
    if scores != [] {
      BucketCounts(scores[..|scores| - 1]);
    }
  }

  // Hours of the day.

  datatype HourCount = HourCount(hour: int, sessions: nat)

  /** `getHours()` of each start time. */
  function StartHours(filtered: seq<AnalyticsSession>, offset: int): (r: seq<int>)
    ensures |r| == |filtered|
  {
    seq(|filtered|, i requires 0 <= i < |filtered| =>
      if filtered[i].session.progress.Some? then LocalHour(filtered[i].session.progress.value.startTime, offset) else -1)
  }

  /** `hourlyStats`: for each hour 0..23, the sessions that started in it. */
  function HourlyStats(filtered: seq<AnalyticsSession>, offset: int): (r: seq<HourCount>)
    ensures |r| == 24
    ensures forall h :: 0 <= h < 24 ==> r[h].hour == h
  {
    seq(24, h requires 0 <= h < 24 => HourCount(h, Occurrences(StartHours(filtered, offset), h)))
  }

  function HourTotal(stats: seq<HourCount>): int {
    if stats == [] then 0 else HourTotal(stats[..|stats| - 1]) + stats[|stats| - 1].sessions
  }

  /** The 24 hourly buckets partition the filtered sessions, each of which
      has a start time. */
  lemma HourlyStatsPartition(filtered: seq<AnalyticsSession>, offset: int)
    requires forall i :: 0 <= i < |filtered| ==> filtered[i].session.progress.Some?
    ensures HourTotal(HourlyStats(filtered, offset)) == |filtered|
  {
    var keys := StartHours(filtered, offset);
    var stats := HourlyStats(filtered, offset);
    BucketTotal(keys, 24);
    HourTotalIsBucketTotal(stats, keys, 24);
    assert stats[..24] == stats;
  }

  /** Sum of the occurrence counts of keys 0..n-1. */
  function OccurrenceTotal(keys: seq<int>, n: nat): int {
    if n == 0 then 0 else OccurrenceTotal(keys, n - 1) + Occurrences(keys, n - 1)
  }

  lemma {:induction false} HourTotalIsBucketTotal(stats: seq<HourCount>, keys: seq<int>, n: nat)
    requires n <= |stats|
    requires forall h :: 0 <= h < |stats| ==> stats[h].sessions == Occurrences(keys, h)
    ensures HourTotal(stats[..n]) == OccurrenceTotal(keys, n)
  {
    if n > 0 {
      HourTotalIsBucketTotal(stats, keys, n - 1);
      assert stats[..n][..n - 1] == stats[..n - 1];
    }
  }

  /** Keys drawn from 0..n-1 are each counted in exactly one bucket. */
  lemma {:induction false} BucketTotal(keys: seq<int>, n: nat)
    requires forall i :: 0 <= i < |keys| ==> 0 <= keys[i] < n
    ensures OccurrenceTotal(keys, n) == |keys|
  {
    if keys != [] {
      var init := keys[..|keys| - 1];
      var last := keys[|keys| - 1];
      assert keys == init + [last];
      assert forall i :: 0 <= i < |init| ==> init[i] == keys[i];
      BucketTotal(init, n);
      OccurrenceTotalStep(init, last, n);
      assert 0 <= last < n;
    } else {
      NoKeysNoOccurrences(n);
    }
  }

  lemma {:induction false} NoKeysNoOccurrences(n: nat)
    ensures OccurrenceTotal([], n) == 0
  {
    if n > 0 {
      NoKeysNoOccurrences(n - 1);
    }
  }

  lemma {:induction false} OccurrenceTotalStep(keys: seq<int>, k: int, n: nat)
    ensures OccurrenceTotal(keys + [k], n) == OccurrenceTotal(keys, n) + (if 0 <= k < n then 1 else 0)
  {
    if n > 0 {
      OccurrenceTotalStep(keys, k, n - 1);
      assert (keys + [k])[..|keys|] == keys;
    }
  }

  /** `a` ranks before `b` after a stable sort by descending count of a list
      in hour order: more sessions, or as many and an earlier hour. */
  predicate RanksBefore(a: HourCount, b: HourCount) {
    a.sessions > b.sessions || (a.sessions == b.sessions && a.hour < b.hour)
  }

  ghost predicate Ranked(s: seq<HourCount>, lo: int, hi: int)
    requires 0 <= lo <= hi <= |s|
  {
    forall x, y :: lo <= x < y < hi ==> RanksBefore(s[x], s[y])
  }

  /** `hourlyStats.sort((a, b) => b.sessions - a.sessions)` in place. The
      sort is stable and the list starts in hour order, so equal counts keep
      the earlier hour first. Insertion sort. */
  method SortByCountDescending(a: array<HourCount>)
    requires forall k :: 0 <= k < a.Length ==> a[k].hour == k
    modifies a
    ensures Ranked(a[..], 0, a.Length)
    ensures multiset(a[..]) == multiset(old(a[..]))
  {
    ghost var start := a[..];
    for i := 0 to a.Length
      invariant Ranked(a[..], 0, i)
      invariant multiset(a[..]) == multiset(start)
      invariant a[i..] == start[i..]
      invariant forall x :: 0 <= x < i ==> a[x].hour < i
    {
      assert a[i] == a[i..][0] == start[i];
      ghost var before := a[..];
      InsertLast(a, i);
      assert a[i + 1..] == before[i + 1..] == before[i..][1..];
    }
  }

  /** One pass: moves `a[i]` left past every entry with fewer sessions. */
  method InsertLast(a: array<HourCount>, i: nat)
    requires i < a.Length
    requires Ranked(a[..], 0, i)
    requires a[i].hour == i && forall x :: 0 <= x < i ==> a[x].hour < i
    modifies a
    ensures Ranked(a[..], 0, i + 1)
    ensures multiset(a[..]) == multiset(old(a[..]))
    ensures a[i + 1..] == old(a[..])[i + 1..]
    ensures forall x :: 0 <= x <= i ==> a[x].hour <= i
  {
    ghost var start := a[..];
    var j: nat := i;
    while j > 0 && a[j - 1].sessions < a[j].sessions
      invariant InsertState(a[..], start, j, i)
    {
      ghost var before := a[..];
      Swap(a, j - 1);
      SwapStep(before, start, j, i);
      j := j - 1;
    }
    InsertingDone(a[..], start, j, i);
  }

  /** The state of an insertion pass for the entry of hour `i`, now at `j`:
      the entries before and after it are ranked, everything before it
      ranks before everything after it, and it has more sessions than every
      entry after it. */
  ghost predicate Inserting(s: seq<HourCount>, j: nat, i: nat) {
    && j <= i < |s|
    && s[j].hour == i && (forall x :: 0 <= x <= i && x != j ==> s[x].hour < i)
    && Ranked(s, 0, j) && Ranked(s, j + 1, i + 1)
    && (forall x, y :: 0 <= x < j < y <= i ==> RanksBefore(s[x], s[y]))
    && (forall y :: j < y <= i ==> s[j].sessions > s[y].sessions)
  }

  /** An insertion pass started from `start`: it has only moved entries
      around, and only up to `i`. */
  ghost predicate InsertState(s: seq<HourCount>, start: seq<HourCount>, j: nat, i: nat) {
    && Inserting(s, j, i)
    && |s| == |start|
    && multiset(s) == multiset(start)
    && s[i + 1..] == start[i + 1..]
  }

  lemma SwapStep(s: seq<HourCount>, start: seq<HourCount>, j: nat, i: nat)
    requires InsertState(s, start, j, i) && j > 0 && s[j - 1].sessions < s[j].sessions
    ensures InsertState(s[j - 1 := s[j]][j := s[j - 1]], start, j - 1, i)
  {
    var t := s[j - 1 := s[j]][j := s[j - 1]];
    SwapKeepsInserting(s, j, i);
    assert t[i + 1..] == s[i + 1..];
    assert multiset(t) == multiset(s);
  }

  lemma SwapKeepsInserting(s: seq<HourCount>, j: nat, i: nat)
    requires Inserting(s, j, i) && j > 0 && s[j - 1].sessions < s[j].sessions
    ensures Inserting(s[j - 1 := s[j]][j := s[j - 1]], j - 1, i)
  {
    var t := s[j - 1 := s[j]][j := s[j - 1]];
    assert forall y :: j < y <= i ==> RanksBefore(s[j - 1], s[y]);
    assert Ranked(t, j, i + 1);
  }

  lemma InsertingDone(s: seq<HourCount>, start: seq<HourCount>, j: nat, i: nat)
    requires InsertState(s, start, j, i)
    requires j == 0 || s[j - 1].sessions >= s[j].sessions
    ensures Ranked(s, 0, i + 1)
    ensures multiset(s) == multiset(start)
    ensures s[i + 1..] == start[i + 1..]
    ensures forall x :: 0 <= x <= i ==> s[x].hour <= i
  {
    forall x, y | 0 <= x < y < i + 1
      ensures RanksBefore(s[x], s[y])
    {
      if y == j && x < j - 1 {
        assert RanksBefore(s[x], s[j - 1]);
      }
    }
  }

  method Swap(a: array<HourCount>, k: nat)
    requires k + 1 < a.Length
    modifies a
    ensures a[..] == old(a[..])[k := old(a[k + 1])][k + 1 := old(a[k])]
  {
    a[k], a[k + 1] := a[k + 1], a[k];
  }

  /** `peakHours`: the first three entries after the sort. They are in
      ranking order, and each ranks before every hour left out. */
  method PeakHours(hourly: seq<HourCount>) returns (peak: seq<HourCount>)
    requires |hourly| == 24 && forall h :: 0 <= h < 24 ==> hourly[h].hour == h
    ensures |peak| == 3
    ensures forall i, j :: 0 <= i < j < 3 ==> RanksBefore(peak[i], peak[j])
    ensures forall i :: 0 <= i < 3 ==> peak[i] in hourly
    ensures forall h, i :: 0 <= h < 24 && 0 <= i < 3 && hourly[h] !in peak ==> RanksBefore(peak[i], hourly[h])
  {
    var a := new HourCount[24](k requires 0 <= k < 24 => hourly[k]);
    assert a[..] == hourly;
    SortByCountDescending(a);
    peak := a[..3];
    forall i | 0 <= i < 3 ensures peak[i] in hourly {
      assert peak[i] in multiset(a[..]);
    }
    forall h, i | 0 <= h < 24 && 0 <= i < 3 && hourly[h] !in peak ensures RanksBefore(peak[i], hourly[h]) {
      assert hourly[h] in multiset(a[..]);
      var y :| 0 <= y < 24 && a[y] == hourly[h];
      assert y >= 3;
    }
  }

  /** In particular no hour left out had more sessions than a peak hour. */
  lemma PeakHoursDominate(peak: seq<HourCount>, hourly: seq<HourCount>)
    requires |peak| == 3 && |hourly| == 24
    requires forall h, i :: 0 <= h < 24 && 0 <= i < 3 && hourly[h] !in peak ==> RanksBefore(peak[i], hourly[h])
    ensures forall h, i :: 0 <= h < 24 && 0 <= i < 3 && hourly[h] !in peak ==> peak[i].sessions >= hourly[h].sessions
  {
  }

  // The fourteen-day chart.

  datatype TrendDay = TrendDay(date: string, completed: nat, started: nat)

  function DayBucket(filtered: seq<AnalyticsSession>, dayStart: int, formatDay: int -> string): (r: TrendDay)
    ensures r.completed <= r.started
  {
    var started := CountWhere(filtered, (s: AnalyticsSession) => StartedOnDay(s.session, dayStart));
    var completed := CountWhere(filtered, (s: AnalyticsSession) => StartedOnDay(s.session, dayStart) && Certified(s.session));
    CountWhereMonotone(filtered, (s: AnalyticsSession) => StartedOnDay(s.session, dayStart) && Certified(s.session), (s: AnalyticsSession) => StartedOnDay(s.session, dayStart));
    TrendDay(formatDay(dayStart), completed, started)
  }

  /** `completionTrend`: fourteen days built from today backwards, then
      reversed so that the oldest day comes first. */
  function CompletionTrend(filtered: seq<AnalyticsSession>, now: int, offset: int, formatDay: int -> string): (r: seq<TrendDay>)
    ensures |r| == 14
    ensures forall k :: 0 <= k < 14 ==> r[k].completed <= r[k].started
  {
    seq(14, k requires 0 <= k < 14 => TrendDayAt(filtered, now, offset, formatDay, k))
  }

  /** Entry `k` of the chart, `13 - k` days back. */
  function TrendDayAt(filtered: seq<AnalyticsSession>, now: int, offset: int, formatDay: int -> string, k: nat): (r: TrendDay)
    requires k < 14
    ensures r.completed <= r.started
  {
    DayBucket(filtered, DaysAgoStart(now, offset, 13 - k), formatDay)
  }

  /** Entry `k` is the day that began `13 - k` days before today's local
      midnight: consecutive days, oldest first, today last. */
  lemma CompletionTrendDays(filtered: seq<AnalyticsSession>, now: int, offset: int, formatDay: int -> string, k: nat)
    requires k < 14
    ensures CompletionTrend(filtered, now, offset, formatDay)[k]
      == DayBucket(filtered, LocalDayStart(now, offset) - (13 - k) * DayMs, formatDay)
  {
    DaysAgoStartShift(now, offset, 13 - k);
  }

  // Rates, in percent.

  /** `part / total * 100`, or 0 when there is nothing to divide by. */
  function Rate(part: int, total: nat): real {
    if total > 0 then part as real / total as real * 100.0 else 0.0
  }

  lemma RateBounds(part: nat, total: nat)
    requires part <= total
    ensures 0.0 <= Rate(part, total) <= 100.0
  {
    if total > 0 {
      var q := part as real / total as real;
      assert q * total as real == part as real;
    }
  }

  /** Dropout and conversion add up to 100 for a non-empty selection. */
  lemma DropoutPlusConversion(completed: nat, total: nat)
    requires completed <= total && total > 0
    ensures Rate(total - completed, total) + Rate(completed, total) == 100.0
  {
    var t := total as real;
    var a := (total - completed) as real / t;
    var b := completed as real / t;
    assert a * t == (total - completed) as real;
    assert b * t == completed as real;
    assert (a + b - 1.0) * t == 0.0;
    assert a + b == 1.0;
  }

  datatype Analytics = Analytics(
    totalSessions: nat,
    activeSessions: nat,
    completedSessions: nat,
    averageScore: real,
    averageDuration: real,
    dropoutRate: real,
    conversionRate: real,
    peakHours: seq<HourCount>,
    deviceStats: Tally,
    languageStats: Tally,
    locationStats: Tally,
    completionTrend: seq<TrendDay>,
    scoreDistribution: seq<(string, nat)>,
    helpRequestRate: real,
    retryRate: real)

  /** The `analytics` memo. */
  method ComputeAnalytics(sessions: seq<AnalyticsSession>, now: int, offset: int, periodDays: nat,
                          profile: string, location: string, formatDay: int -> string) returns (r: Analytics)
    ensures
      var f := FilterSessions(sessions, now, periodDays, profile, location);
      && r.totalSessions == |f|
      && r.activeSessions == CountWhere(f, IsActive) <= r.totalSessions
      && r.completedSessions == CountWhere(f, IsCertified) <= r.totalSessions
      && r.averageScore == ExportUtils.Average(ExportUtils.ToReals(ExportUtils.QcmScores(Sessions(f))))
      && r.averageDuration == ExportUtils.Average(ExportUtils.ToMinutes(ExportUtils.Durations(Sessions(f))))
      && r.dropoutRate == Rate(|f| - r.completedSessions, |f|)
      && r.conversionRate == Rate(r.completedSessions, |f|)
      && (|f| > 0 ==> r.dropoutRate + r.conversionRate == 100.0)
      && 0.0 <= r.conversionRate <= 100.0
      && r.helpRequestRate == Rate(CountWhere(f, AskedForHelp), |f|) && 0.0 <= r.helpRequestRate <= 100.0
      && r.retryRate == Rate(CountWhere(f, Retried), |f|) && 0.0 <= r.retryRate <= 100.0
      && |r.peakHours| == 3
      && (forall h, i :: 0 <= h < 24 && 0 <= i < 3 && HourlyStats(f, offset)[h] !in r.peakHours ==>
            RanksBefore(r.peakHours[i], HourlyStats(f, offset)[h]))
      && (forall k :: TallyGet(r.deviceStats, k) == Occurrences(DeviceKeys(f), k))
      && (forall k :: TallyGet(r.languageStats, k) == Occurrences(LanguageKeys(f), k))
      && (forall k :: TallyGet(r.locationStats, k) == Occurrences(LocationKeys(f), k))
      && TallyTotal(r.deviceStats) == TallyTotal(r.languageStats) == TallyTotal(r.locationStats) == |f|
      && r.completionTrend == CompletionTrend(f, now, offset, formatDay)
      && r.scoreDistribution == ScoreDistribution(ExportUtils.QcmScores(Sessions(f)))
  {
    var f := FilterSessions(sessions, now, periodDays, profile, location);
    var total := |f|;
    var completed := CountWhere(f, IsCertified);
    var scores := ExportUtils.QcmScores(Sessions(f));
    var durations := ExportUtils.Durations(Sessions(f));
    var peak := PeakHours(HourlyStats(f, offset));
    var devices := GroupCount(DeviceKeys(f));
    var languages := GroupCount(LanguageKeys(f));
    var locations := GroupCount(LocationKeys(f));
    var help := CountWhere(f, AskedForHelp);
    var retries := CountWhere(f, Retried);
    if total > 0 {
      DropoutPlusConversion(completed, total);
    }
    RateBounds(completed, total);
    RateBounds(help, total);
    RateBounds(retries, total);
    r := Analytics(
      total,
      CountWhere(f, IsActive),
      completed,
      ExportUtils.Average(ExportUtils.ToReals(scores)),
      ExportUtils.Average(ExportUtils.ToMinutes(durations)),
      Rate(total - completed, total),
      Rate(completed, total),
      peak,
      devices,
      languages,
      locations,
      CompletionTrend(f, now, offset, formatDay),
      ScoreDistribution(scores),
      Rate(help, total),
      Rate(retries, total));
  }
}
