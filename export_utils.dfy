/** The CSV export and the summary figures of client/utils/export-utils.ts.
    Every field is written between double quotes with inner quotes doubled,
    fields are separated by ',' and records by a line feed, which is the
    quoted-field form of section 2 of RFC 4180 with LF in place of CRLF.
    Locale date formatting is a parameter. */
module ExportUtils {
  import opened Common
  import opened UserSession

  /** Column titles of the export. */
  const Headers: seq<string> := [
    "Session ID",
    "Utilisateur",
    "Email",
    "Profil",
    "Entreprise",
    "Date de visite",
    "Langue",
    "Étape actuelle",
    "Progression (%)",
    "QCM commencé",
    "QCM terminé",
    "Score QCM",
    "Zones de sécurité vues",
    "Durée session (min)",
    "Certificat généré",
    "Date de début",
    "Dernière activité"
  ]

  const ColumnCount: nat := 17

  /** `parts.join(sep)`. */
  function Join(parts: seq<string>, sep: string): string {
    if parts == [] then ""
    else if |parts| == 1 then parts[0]
    else parts[0] + sep + Join(parts[1..], sep)
  }

  /** `text.replace(/"/g, '""')`. */
  function EscapeQuotes(text: string): (r: string)
    ensures |r| >= |text|
  {
    if text == [] then []
    else (if text[0] == '"' then "\"\"" else [text[0]]) + EscapeQuotes(text[1..])
  }

  /** One field as written: `"` + escaped text + `"`. */
  function QuoteField(text: string): string {
    "\"" + EscapeQuotes(text) + "\""
  }

  function QuoteAll(fields: seq<string>): (r: seq<string>)
    ensures |r| == |fields|
  {
    seq(|fields|, i requires 0 <= i < |fields| => QuoteField(fields[i]))
  }

  /** One record: its quoted fields joined by commas. */
  function RenderRow(fields: seq<string>): string {
    Join(QuoteAll(fields), ",")
  }

  function RenderRows(rows: seq<seq<string>>): (r: seq<string>)
    ensures |r| == |rows|
  {
    seq(|rows|, i requires 0 <= i < |rows| => RenderRow(rows[i]))
  }

  /** The whole text: records joined by line feeds. */
  function RenderDocument(rows: seq<seq<string>>): string {
    Join(RenderRows(rows), "\n")
  }

  // A reader for the format written above, the partner of the writer.

  /** Reads the rest of a quoted field, the opening quote already consumed:
      `""` stands for one quote and a lone `"` closes the field. Yields the
      text and what follows the closing quote. */
  function ParseQuotedBody(s: string): (r: Option<(string, string)>)
    ensures r.Some? ==> |r.value.1| < |s|
    decreases |s|
  {
    if s == [] then None
    else if s[0] == '"' then
      if |s| >= 2 && s[1] == '"' then
        match ParseQuotedBody(s[2..])
        case None => None
        case Some((text, rest)) => Some(("\"" + text, rest))
      else Some(("", s[1..]))
    else
      match ParseQuotedBody(s[1..])
      case None => None
      case Some((text, rest)) => Some(([s[0]] + text, rest))
  }

  /** Reads quoted fields separated by commas, up to a line feed or the end. */
  function ParseFields(s: string): (r: Option<(seq<string>, string)>)
    ensures r.Some? ==> |r.value.1| < |s|
    decreases |s|
  {
    if s == [] || s[0] != '"' then None
    else
      match ParseQuotedBody(s[1..])
      case None => None
      case Some((text, rest)) =>
        if rest != [] && rest[0] == ',' then
          match ParseFields(rest[1..])
          case None => None
          case Some((more, tail)) => Some(([text] + more, tail))
        else Some(([text], rest))
  }

  /** Reads records separated by line feeds up to the end of the text. */
  function ParseDocument(s: string): Option<seq<seq<string>>>
    decreases |s|
  {
    match ParseFields(s)
    case None => None
    case Some((row, rest)) =>
      if rest == [] then Some([row])
      else if rest[0] == '\n' then
        match ParseDocument(rest[1..])
        case None => None
        case Some(rows) => Some([row] + rows)
      else None
  }

  /** Unquoting a written field gives back its text, whatever follows it
      (other than a quote). */
  lemma {:induction false} QuotedBodyRoundTrip(text: string, rest: string)
    requires rest == [] || rest[0] != '"'
    ensures ParseQuotedBody(EscapeQuotes(text) + "\"" + rest) == Some((text, rest))
    decreases |text|
  {
    var s := EscapeQuotes(text) + "\"" + rest;
    if text != [] {
      QuotedBodyRoundTrip(text[1..], rest);
      var tail := EscapeQuotes(text[1..]) + "\"" + rest;
      if text[0] == '"' {
        assert s == "\"\"" + tail;
        assert s[2..] == tail;
        assert "\"" + text[1..] == text;
      } else {
        assert s == [text[0]] + tail;
        assert s[1..] == tail;
        assert [text[0]] + text[1..] == text;
      }
    }
  }

  /** A written field read back gives its text. */
  lemma QuoteFieldRoundTrip(text: string)
    ensures ParseQuotedBody(QuoteField(text)[1..]) == Some((text, ""))
  {
    QuotedBodyRoundTrip(text, "");
    assert QuoteField(text)[1..] == EscapeQuotes(text) + "\"" + "";
  }

  lemma RenderRowUnfold(fields: seq<string>)
    requires |fields| > 0
    ensures |fields| == 1 ==> RenderRow(fields) == QuoteField(fields[0])
    ensures |fields| > 1 ==> RenderRow(fields) == QuoteField(fields[0]) + "," + RenderRow(fields[1..])
  {
    var q := QuoteAll(fields);
    if |fields| > 1 {
      assert q[1..] == QuoteAll(fields[1..]);
    }
  }

  /** A written field followed by anything but a quote reads back as its text. */
  lemma FieldReadsBack(text: string, after: string)
    requires after == [] || after[0] != '"'
    ensures (QuoteField(text) + after)[0] == '"'
    ensures ParseQuotedBody((QuoteField(text) + after)[1..]) == Some((text, after))
  {
    assert (QuoteField(text) + after)[1..] == EscapeQuotes(text) + "\"" + after;
    QuotedBodyRoundTrip(text, after);
  }

  lemma {:induction false} RowRoundTrip(fields: seq<string>, rest: string)
    requires |fields| > 0
    requires rest == [] || rest[0] == '\n'
    ensures ParseFields(RenderRow(fields) + rest) == Some((fields, rest))
    decreases |fields|
  {
    RenderRowUnfold(fields);
    if |fields| == 1 {
      FieldReadsBack(fields[0], rest);
      assert [fields[0]] == fields;
    } else {
      var tail := RenderRow(fields[1..]) + rest;
      assert RenderRow(fields) + rest == QuoteField(fields[0]) + ("," + tail);
      FieldReadsBack(fields[0], "," + tail);
      RowRoundTrip(fields[1..], rest);
      assert ("," + tail)[1..] == tail;
      assert [fields[0]] + fields[1..] == fields;
    }
  }

  /** Reading back a written document gives its records, field by field,
      provided none of them is empty. */
  lemma {:induction false} DocumentRoundTrip(rows: seq<seq<string>>)
    requires |rows| > 0
    requires forall i :: 0 <= i < |rows| ==> |rows[i]| > 0
    ensures ParseDocument(RenderDocument(rows)) == Some(rows)
    decreases |rows|
  {
    var r := RenderRows(rows);
    if |rows| == 1 {
      assert r == [RenderRow(rows[0])];
      assert RenderDocument(rows) == RenderRow(rows[0]) + "";
      RowRoundTrip(rows[0], "");
      assert [rows[0]] == rows;
    } else {
      assert r[1..] == RenderRows(rows[1..]);
      var tail := RenderDocument(rows[1..]);
      assert RenderDocument(rows) == RenderRow(rows[0]) + ("\n" + tail);
      RowRoundTrip(rows[0], "\n" + tail);
      DocumentRoundTrip(rows[1..]);
      assert ("\n" + tail)[1..] == tail;
      assert [rows[0]] + rows[1..] == rows;
    }
  }

  /** `Math.round(seconds / 60)`: halves go up, also below zero. */
  function RoundDiv60(n: int): (r: int)
    ensures 2 * n < 120 * r + 60 && 120 * r - 60 <= 2 * n
  {
    (2 * n + 60) / 120
  }

  function YesNo(b: bool): string { if b then "Oui" else "Non" }

  /** `progress?.qcmScore || ''`: a missing score and a score of 0 both give
      an empty cell. */
  function ScoreCell(score: Option<int>): (r: string)
    ensures r == "" <==> score.None? || score.value == 0
  {
    if score.Some? && score.value != 0 then IntToString(score.value) else ""
  }

  /** The first seven cells: session id and the visitor's details. */
  function UserCells(sessionId: string, u: Option<UserProfile>, formatDate: int -> string): (r: seq<string>)
    ensures |r| == 7 && r[0] == sessionId
    ensures u.None? ==> r[1..] == ["", "", "", "", "", ""]
  {
    [
      sessionId,
      if u.Some? then u.value.firstName + " " + u.value.lastName else "",
      if u.Some? then OrElse(u.value.email, "") else "",
      if u.Some? then u.value.profileType else "",
      if u.Some? then OrElse(u.value.company, "") else "",
      if u.Some? then formatDate(u.value.visitDate) else "",
      if u.Some? then u.value.language else ""
    ]
  }

  /** The last ten cells: the training progress. */
  function ProgressCells(s: TrainingSession, formatDateTime: int -> string): (r: seq<string>)
    ensures |r| == 10
    ensures r[1] == NatToString(CompletionPercentage(s))
    ensures r[4] == ScoreCell(if s.progress.Some? then s.progress.value.qcmScore else None)
    ensures s.progress.None? ==> r == ["0", "0", "Non", "Non", "", "", "0", "Non", "", ""]
  {
    var p := s.progress;
    [
      if p.Some? then IntToString(p.value.currentStep) else "0",
      NatToString(CompletionPercentage(s)),
      YesNo(p.Some? && p.value.qcmStarted),
      YesNo(p.Some? && p.value.qcmCompleted),
      ScoreCell(if p.Some? then p.value.qcmScore else None),
      if p.Some? then Join(p.value.safetyZonesCompleted, "; ") else "",
      if p.Some? then IntToString(RoundDiv60(p.value.sessionDuration)) else "0",
      YesNo(p.Some? && p.value.certificateGenerated),
      if p.Some? then formatDateTime(p.value.startTime) else "",
      if p.Some? then formatDateTime(p.value.lastActivity) else ""
    ]
  }

  /** The 17 cells written for one session. */
  function SessionRow(s: TrainingSession, formatDate: int -> string, formatDateTime: int -> string): (r: seq<string>)
    ensures |r| == |Headers| == ColumnCount
    ensures r[0] == s.sessionId
    ensures r[8] == NatToString(CompletionPercentage(s))
    ensures r[11] == ScoreCell(if s.progress.Some? then s.progress.value.qcmScore else None)
  {
    UserCells(s.sessionId, s.user, formatDate) + ProgressCells(s, formatDateTime)
  }

  function SessionRows(sessions: seq<TrainingSession>, formatDate: int -> string, formatDateTime: int -> string): (r: seq<seq<string>>)
    ensures |r| == |sessions|
  {
    seq(|sessions|, i requires 0 <= i < |sessions| => SessionRow(sessions[i], formatDate, formatDateTime))
  }

  /** `generateCSVContent`: the header record, then one record per session. */
  function GenerateCsvContent(sessions: seq<TrainingSession>, formatDate: int -> string, formatDateTime: int -> string): (r: string)
    ensures ParseDocument(r) == Some([Headers] + SessionRows(sessions, formatDate, formatDateTime))
  {
    var rows := [Headers] + SessionRows(sessions, formatDate, formatDateTime);
    DocumentRoundTrip(rows);
    RenderDocument(rows)
  }

  /** Reading the export back yields the 17 column titles and then, in input
      order, exactly one 17-cell record per session. */
  lemma CsvExportReadsBack(sessions: seq<TrainingSession>, formatDate: int -> string, formatDateTime: int -> string)
    ensures
      var parsed := ParseDocument(GenerateCsvContent(sessions, formatDate, formatDateTime));
      && parsed.Some?
      && |parsed.value| == |sessions| + 1
      && parsed.value[0] == Headers
      && forall i :: 0 <= i < |sessions| ==>
           parsed.value[i + 1] == SessionRow(sessions[i], formatDate, formatDateTime) && |parsed.value[i + 1]| == ColumnCount
  {
    var rows := [Headers] + SessionRows(sessions, formatDate, formatDateTime);
    DocumentRoundTrip(rows);
  }

  /** What `calculateAnalytics` returns; the averages are real numbers. */
  datatype ExportData = ExportData(
    sessions: seq<TrainingSession>,
    exportDate: int,
    exportedBy: string,
    totalSessions: nat,
    completedSessions: nat,
    averageScore: real,
    averageDuration: real)

  /** The defined quiz scores, in session order. */
  function QcmScores(sessions: seq<TrainingSession>): (r: seq<int>)
    ensures |r| <= |sessions|
  {
    if sessions == [] then []
    else
      var last := sessions[|sessions| - 1];
      QcmScores(sessions[..|sessions| - 1])
        + (if last.progress.Some? && last.progress.value.qcmScore.Some? then [last.progress.value.qcmScore.value] else [])
  }

  /** The non-zero session durations, in session order. */
  function Durations(sessions: seq<TrainingSession>): (r: seq<int>)
    ensures |r| <= |sessions|
    ensures forall i :: 0 <= i < |r| ==> r[i] != 0
  {
    if sessions == [] then []
    else
      var last := sessions[|sessions| - 1];
      Durations(sessions[..|sessions| - 1])
        + (if last.progress.Some? && last.progress.value.sessionDuration != 0 then [last.progress.value.sessionDuration] else [])
  }

  function SumReal(s: seq<real>): real {
    if s == [] then 0.0 else SumReal(s[..|s| - 1]) + s[|s| - 1]
  }

  function ToMinutes(s: seq<int>): (r: seq<real>)
    ensures |r| == |s|
  {
    seq(|s|, i requires 0 <= i < |s| => s[i] as real / 60.0)
  }

  function ToReals(s: seq<int>): (r: seq<real>)
    ensures |r| == |s|
  {
    seq(|s|, i requires 0 <= i < |s| => s[i] as real)
  }

  /** `values.reduce((a, b) => a + b, 0) / values.length`, or 0 without values. */
  function Average(values: seq<real>): real {
    if |values| > 0 then SumReal(values) / (|values| as real) else 0.0
  }

  /** `calculateAnalytics` at export time `now`. */
  function CalculateAnalytics(sessions: seq<TrainingSession>, now: int): (r: ExportData)
    ensures r.sessions == sessions && r.exportDate == now && r.exportedBy == "Administrator"
    ensures r.totalSessions == |sessions|
    ensures r.completedSessions == CountWhere(sessions, Certified) <= r.totalSessions
    ensures QcmScores(sessions) == [] ==> r.averageScore == 0.0
    ensures Durations(sessions) == [] ==> r.averageDuration == 0.0
  {
    ExportData(
      sessions,
      now,
      "Administrator",
      |sessions|,
      |Filter(sessions, Certified)|,
      Average(ToReals(QcmScores(sessions))),
      Average(ToMinutes(Durations(sessions))))
  }

  lemma {:induction false} SumRealBounds(s: seq<real>, lo: real, hi: real)
    requires forall i :: 0 <= i < |s| ==> lo <= s[i] <= hi
    ensures lo * (|s| as real) <= SumReal(s) <= hi * (|s| as real)
  {
    if s != [] {
      SumRealBounds(s[..|s| - 1], lo, hi);
    }
  }

  /** An average lies between any lower and upper bound of its values. */
  lemma AverageWithin(values: seq<real>, lo: real, hi: real)
    requires |values| > 0
    requires forall i :: 0 <= i < |values| ==> lo <= values[i] <= hi
    ensures lo <= Average(values) <= hi
  {
    SumRealBounds(values, lo, hi);
    var n := |values| as real;
    assert lo * n <= SumReal(values) <= hi * n;
  }

  /** The average score lies between the lowest and the highest defined
      score. */
  lemma AverageScoreWithinScores(sessions: seq<TrainingSession>, lo: int, hi: int, now: int)
    requires QcmScores(sessions) != []
    requires forall i :: 0 <= i < |QcmScores(sessions)| ==> lo <= QcmScores(sessions)[i] <= hi
    ensures lo as real <= CalculateAnalytics(sessions, now).averageScore <= hi as real
  {
    AverageWithin(ToReals(QcmScores(sessions)), lo as real, hi as real);
  }

  lemma {:induction false} SumMinutes(s: seq<int>)
    ensures SumReal(ToMinutes(s)) == Sum(s) as real / 60.0
  {
    if s != [] {
      SumMinutes(s[..|s| - 1]);
      assert ToMinutes(s)[..|s| - 1] == ToMinutes(s[..|s| - 1]);
    }
  }

  /** The average duration is the total of the non-zero durations over 60
      times their number: the mean session length in minutes. */
  lemma AverageDurationInMinutes(sessions: seq<TrainingSession>, now: int)
    requires Durations(sessions) != []
    ensures CalculateAnalytics(sessions, now).averageDuration
      == Sum(Durations(sessions)) as real / (60.0 * |Durations(sessions)| as real)
  {
    assert CalculateAnalytics(sessions, now).averageDuration == Average(ToMinutes(Durations(sessions)));
    AverageOfMinutes(Durations(sessions));
  }

  lemma AverageOfMinutes(d: seq<int>)
    requires d != []
    ensures Average(ToMinutes(d)) == Sum(d) as real / (60.0 * |d| as real)
  {
    var total := Sum(d) as real;
    var n := |d| as real;
    var minutes := SumReal(ToMinutes(d));
    assert Average(ToMinutes(d)) == minutes / n;
    SumMinutes(d);
    MinutesOverCount(minutes, total, n);
  }

  lemma MinutesOverCount(minutes: real, total: real, n: real)
    requires n > 0.0 && minutes == total / 60.0
    ensures minutes / n == total / (60.0 * n)
  {
    DivDiv(total, 60.0, n);
  }

  lemma DivDiv(x: real, a: real, b: real)
    requires a > 0.0 && b > 0.0
    ensures (x / a) / b == x / (a * b)
  {
    var q := x / (a * b);
    assert q * (a * b) == x;
    assert (q * b) * a == x;
    assert x / a == q * b;
  }
}
