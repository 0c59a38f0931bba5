/** The figures of the basic admin dashboard, client/pages/AdminDashboard.tsx:
    the sessions of the selected period, the tally per profile, a seven-day
    completion chart, the completion-rate tile, the score badge and the
    ten-line session table. The clock and the local-time offset are
    parameters. */
module AdminDashboard {
  import opened Common
  import opened UserSession
  import ExportUtils

  /** `cutoffDate.setDate(cutoffDate.getDate() - period)`. */
  function PeriodCutoff(now: int, periodDays: nat): int {
    now - periodDays * DayMs
  }

  /** `filteredSessions`: the sessions with a start time no earlier than the
      cutoff, in their original order. */
  function FilterByPeriod(sessions: seq<TrainingSession>, now: int, periodDays: nat): (r: seq<TrainingSession>)
    ensures |r| <= |sessions|
    ensures forall i :: 0 <= i < |r| ==> StartedSince(r[i], PeriodCutoff(now, periodDays))
  {
    Filter(sessions, s => StartedSince(s, PeriodCutoff(now, periodDays)))
  }

  /** A session is listed exactly when it is one of the input sessions and
      started within the period. */
  lemma FilterByPeriodKeepsExactly(sessions: seq<TrainingSession>, now: int, periodDays: nat, s: TrainingSession)
    ensures s in FilterByPeriod(sessions, now, periodDays) <==> s in sessions && StartedSince(s, PeriodCutoff(now, periodDays))
  {
    FilterMembership(sessions, s => StartedSince(s, PeriodCutoff(now, periodDays)), s);
  }

  /** `user?.profileType || "unknown"` for each session. */
  function ProfileKeys(sessions: seq<TrainingSession>): (r: seq<string>)
    ensures |r| == |sessions|
  {
    seq(|sessions|, i requires 0 <= i < |sessions| =>
      if sessions[i].user.Some? then OrElse(Some(sessions[i].user.value.profileType), "unknown") else "unknown")
  }

  /** `profileStats`: sessions tallied by profile, "unknown" when missing;
      the counts add up to the number of sessions. */
  method ProfileStats(filtered: seq<TrainingSession>) returns (stats: Tally)
    ensures forall k :: TallyGet(stats, k) == Occurrences(ProfileKeys(filtered), k)
    ensures TallyTotal(stats) == |filtered|
    ensures NoDup(TallyKeys(stats))
  {
    stats := GroupCount(ProfileKeys(filtered));
  }

  datatype DayCompletions = DayCompletions(date: string, completions: nat)

  /** Certified sessions that started during the day at `dayStart`. */
  function CompletionsOn(filtered: seq<TrainingSession>, dayStart: int): nat {
    CountWhere(filtered, s => Certified(s) && StartedOnDay(s, dayStart))
  }

  /** `completionTrend`: one bucket per day for the last seven days, today
      last (the list is built from today backwards, then reversed). */
  function CompletionTrend(filtered: seq<TrainingSession>, now: int, offset: int, formatDay: int -> string): (r: seq<DayCompletions>)
    ensures |r| == 7
  {
    seq(7, k requires 0 <= k < 7 =>
      var dayStart := DaysAgoStart(now, offset, 6 - k);
      DayCompletions(formatDay(dayStart), CompletionsOn(filtered, dayStart)))
  }

  /** Bucket `k` of the chart counts the day that began `6 - k` days before
      today's local midnight, so the buckets are consecutive days, oldest
      first, and no bucket counts more than the certified sessions. */
  lemma CompletionTrendDays(filtered: seq<TrainingSession>, now: int, offset: int, formatDay: int -> string, k: nat)
    requires k < 7
    ensures CompletionTrend(filtered, now, offset, formatDay)[k].completions
      == CompletionsOn(filtered, LocalDayStart(now, offset) - (6 - k) * DayMs)
    ensures CompletionTrend(filtered, now, offset, formatDay)[k].completions <= CountWhere(filtered, Certified)
  {
    DaysAgoStartShift(now, offset, 6 - k);
    var dayStart := DaysAgoStart(now, offset, 6 - k);
    CountWhereMonotone(filtered, s => Certified(s) && StartedOnDay(s, dayStart), Certified);
  }

  /** The "completion rate" tile: the rounded share of certified sessions;
      with no session the page divides 0 by 0 and shows NaN (`None`). */
  function CompletionRate(filtered: seq<TrainingSession>): (r: Option<nat>)
    ensures r.None? <==> filtered == []
    ensures r.Some? ==> r.value <= 100
    ensures r.Some? && CountWhere(filtered, Certified) == |filtered| ==> r.value == 100
  {
    var data := ExportUtils.CalculateAnalytics(filtered, 0);
    if data.totalSessions == 0 then None else Some(Percent(data.completedSessions, data.totalSessions))
  }

  datatype Badge = NoScore | Green | Orange | Red

  /** The score cell of the session table: a missing or zero score shows
      "-"; otherwise 80 and above is green, 60 and above orange, the rest red. */
  function ScoreBadge(score: Option<int>): (b: Badge)
    ensures b == NoScore <==> score.None? || score.value == 0
    ensures b == Green <==> score.Some? && score.value >= 80
    ensures b == Orange <==> score.Some? && 60 <= score.value < 80
    ensures b == Red <==> score.Some? && score.value != 0 && score.value < 60
  {
    if score.None? || score.value == 0 then NoScore
    else if score.value >= 80 then Green
    else if score.value >= 60 then Orange
    else Red
  }

  /** A higher score never gets a worse badge. */
  lemma BadgeMonotone(a: int, b: int)
    requires 0 < a <= b
    ensures ScoreBadge(Some(a)) == Green ==> ScoreBadge(Some(b)) == Green
    ensures ScoreBadge(Some(a)) == Orange ==> ScoreBadge(Some(b)) in {Orange, Green}
  {
  }

  /** One line of the session table: name, profile, company, progress,
      the score badge with the score it prints, the duration in minutes and
      whether the status cell reads "Terminé" (true) or "En cours" (false). */
  datatype TableRow = TableRow(
    name: string, profile: string, company: string, progress: nat,
    badge: Badge, score: Option<int>, minutes: int, finished: bool)

  /** One line of the session table. */
  function TableLine(s: TrainingSession): (r: TableRow)
    ensures s.user.Some? ==> r.name == s.user.value.firstName + " " + s.user.value.lastName
    ensures s.user.Some? ==> r.profile == OrElse(Some(s.user.value.profileType), "N/A")
    ensures s.user.Some? ==> r.company == OrElse(s.user.value.company, "N/A")
    ensures s.user.None? ==> r.name == "N/A" && r.profile == "N/A" && r.company == "N/A"
    ensures r.progress == CompletionPercentage(s)
    ensures r.badge == ScoreBadge(if s.progress.Some? then s.progress.value.qcmScore else None)
    ensures r.score.Some? <==> r.badge != NoScore
    ensures r.score.Some? ==> s.progress.Some? && s.progress.value.qcmScore == r.score
    ensures s.progress.None? ==> r.minutes == 0
    ensures s.progress.Some? ==>
      var d := s.progress.value.sessionDuration;
      2 * d < 120 * r.minutes + 60 && 120 * r.minutes - 60 <= 2 * d
    ensures r.finished <==> Certified(s)
  {
    var u := s.user;
    var p := s.progress;
    var badge := ScoreBadge(if p.Some? then p.value.qcmScore else None);
    TableRow(
      if u.Some? then u.value.firstName + " " + u.value.lastName else "N/A",
      if u.Some? then OrElse(Some(u.value.profileType), "N/A") else "N/A",
      if u.Some? then OrElse(u.value.company, "N/A") else "N/A",
      CompletionPercentage(s),
      badge,
      if badge == NoScore then None else p.value.qcmScore,
      if p.Some? then ExportUtils.RoundDiv60(p.value.sessionDuration) else 0,
      p.Some? && p.value.certificateGenerated)
  }

  /** The table: the first ten filtered sessions, in order. */
  function SessionTable(filtered: seq<TrainingSession>): (r: seq<TableRow>)
    ensures |r| == Min(10, |filtered|)
    ensures forall i :: 0 <= i < |r| ==> r[i] == TableLine(filtered[i])
  {
    var shown := Take(filtered, 10);
    seq(|shown|, i requires 0 <= i < |shown| => TableLine(shown[i]))
  }
}
