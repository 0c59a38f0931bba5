# Safety-training kiosk — a Dafny model of its logic

The kiosk is a browser application. A visitor picks a profile, follows a short safety course, clicks through the three safety zones, and takes a multiple-choice quiz (QCM) with a 70 % pass mark. Supervisors get two analytics dashboards with a CSV export, a mobile dashboard with a badge scanner, and an administrator sign-in with daily access codes. Every page can be translated into nine languages.

This project models the parts of that code that make decisions and keep state. There is one Dafny module per source file:

- `UserSession`: the training-session store, including its 24-hour reload rule.
- `QcmQuestions`: the question bank, the pool for each profile and the language fallback.
- `Qcm`: the quiz page's state machine and scoring.
- `SafetyCourse`: the zone checklist.
- `ExportUtils`: the CSV writer, a reader that partners it, and the analytics summary.
- `EnhancedAdminDashboard` and `AdminDashboard`: the dashboards' filters, tallies, buckets, trends, rates and ranking.
- `UseAdmin` and `AdminLogin`: the daily codes, the account table, the admin session and the lockout form.
- `Notifications`: the notification centre.
- `UseLanguage` and `UseLanguageFull`: translation with French fallback, over each file's own tables.
- `DeviceDetection`: device classification and the mobile redirect.
- `MobileDashboard` and `QrScanner`: the bounded "recent" lists and the live counters.
- `Common`: shared pieces — JavaScript's `||` on strings, `Math.round` of a ratio, decimal spelling, filters and counts, the tally record built by `reduce`, and `[x, ...prev.slice(0, k)]`.

How the source is represented:

- Components and hooks that update state become classes. Their methods state the whole new state, and the invariants the page keeps are proved about them.
- Pure computations become functions, with lemmas relating them to independent definitions.
- The clock, random draws, the camera's answer, browser storage and the local-time offset are parameters.
- Timestamps are integer milliseconds.
- Averages are exact rationals (`real`).

## Model

| member | source | states |
|---|---|---|
| Common.OrElse | client/pages/AdminDashboard.tsx:136 | `x \|\| fallback` on a string: the value when present and non-empty, the fallback otherwise |
| Common.RoundRatio | client/utils/export-utils.ts:58 | `Math.round(num / den)` for non-negative operands: the integer nearest the ratio, halves rounded up |
| Common.Percent | client/hooks/use-user-session.tsx:262-268 | `Math.round(part / whole * 100)`: at most 100 for a part of the whole, 100 for the whole, 0 for nothing |
| Common.PercentBounds | client/hooks/use-user-session.tsx:265-267 | the rounded percentage of a part lies within 0..100 and hits both ends |
| Common.PercentMonotone | client/utils/export-utils.ts:53 | a larger part never gives a smaller percentage |
| Common.NatToString | client/hooks/use-admin.tsx:53 | the decimal spelling of a number: digits only, no leading zero |
| Common.NatToStringRoundTrip | client/hooks/use-admin.tsx:53 | reading the decimal spelling back gives the number |
| Common.NatToStringInjective | client/hooks/use-admin.tsx:53 | different numbers are spelled differently |
| Common.IntToString | client/hooks/use-admin.tsx:159 | the spelling of a negative number is a minus sign and the spelling of its magnitude |
| Common.TwoDigits | client/hooks/use-admin.tsx:53 | the two-digit day of a date, which reads back as the day |
| Common.PrependBounded | client/pages/MobileDashboard.tsx:66 | `[x, ...buffer.slice(0, keep)]`: x first, then the first min(keep, n) older entries in order |
| Common.PrependAll | client/components/QRScanner.tsx:148 | after a run of prepends the newest entries come first in reverse arrival order, then the old buffer, at most keep + 1 in all |
| Common.PrependAllSnoc | client/components/QRScanner.tsx:148 | a run with one more entry is one more prepend |
| Common.Take | client/pages/MobileDashboard.tsx:199 | `slice(0, n)`: the first min(n, length) entries |
| Common.LocalDayStart | client/pages/AdminDashboard.tsx:147-151 | the local midnight of an instant: at most the instant, less than a day before it, on a day boundary of local time |
| Common.LocalHour | client/pages/EnhancedAdminDashboard.tsx:194 | `getHours()` lies in 0..23 |
| Common.DaysAgoStartShift | client/pages/AdminDashboard.tsx:145-151 | going back i days moves the local midnight back by exactly i days |
| Common.CountWhere | client/hooks/use-notifications.tsx:118 | `filter(p).length` never exceeds the length |
| Common.Filter | client/hooks/use-notifications.tsx:104 | `filter` returns as many entries as satisfy the test, each satisfying it and taken from the input |
| Common.FilterMembership | client/hooks/use-notifications.tsx:104 | an entry survives `filter` iff it was there and passes the test |
| Common.CountWhereSnoc | client/pages/MobileDashboard.tsx:69-74 | counting over one more entry at the end adds one iff it passes |
| Common.CountWhereCons | client/hooks/use-notifications.tsx:85 | counting over one more entry in front adds one iff it passes |
| Common.CountWhereZero | client/hooks/use-notifications.tsx:117-119 | nothing is counted exactly when no entry passes the test |
| Common.CountWhereMonotone | client/pages/AdminDashboard.tsx:154-162 | a stronger test never counts more |
| Common.Occurrences | client/pages/AdminDashboard.tsx:134-141 | a key (a profile name, or an hour of the day) occurs at most as often as there are keys |
| Common.TallyKeys | client/pages/AdminDashboard.tsx:134-141 | a tally has one key per entry |
| Common.Bump | client/pages/AdminDashboard.tsx:137 | `acc[key] = (acc[key] \|\| 0) + 1`: that key's count grows by one, every other count stays, and the total grows by one |
| Common.BumpKeys | client/pages/AdminDashboard.tsx:137 | bumping adds exactly the key to the record's keys and keeps them duplicate-free |
| Common.GroupCount | client/pages/AdminDashboard.tsx:134-141 | the reduce gives each key its number of occurrences, counts that add up to the number of keys, and duplicate-free keys that are exactly the keys seen |
| Common.NoDupCons | client/pages/AdminDashboard.tsx:137 | a list with a new head is duplicate-free iff the head is new and the rest is duplicate-free |
| Common.NoDupCardinality | client/pages/SafetyCourse.tsx:86 | a duplicate-free list has as many distinct elements as entries |
| Common.NoDupBoundedBy | client/hooks/use-user-session.tsx:262-268 | a duplicate-free list drawn from a set is no longer than the set |
| Common.NoDupFillsUniverse | client/pages/SafetyCourse.tsx:86 | a duplicate-free list drawn from a set and as long as it contains all of it |
| Common.DigitChar | client/hooks/use-admin.tsx:53 | each digit has a character that reads back as it |
| Common.DivBelow | client/hooks/use-user-session.tsx:265-267 | integer division bound used by the rounding |
| Common.DivAtLeast | client/hooks/use-user-session.tsx:265-267 | integer division bound used by the rounding |
| Common.MulMonotone | client/pages/QCM.tsx:101-103 | multiplying by a non-negative factor keeps the order |
| UserSession.CompletionPercentage | client/hooks/use-user-session.tsx:262-268 | the completion percentage is 0 without progress and 0 with no completed step |
| UserSession.CompletionWithinHundred | client/hooks/use-user-session.tsx:262-268 | the percentage is at most 100 when the completed steps are distinct steps of the flow 0..5 |
| UserSession.CompletionCanExceedHundred | client/hooks/use-user-session.tsx:237-268 | `completeStep` accepts step 6, and seven distinct completed steps give 117 percent |
| UserSession.SessionStore.constructor | client/hooks/use-user-session.tsx:74-79 | the provider starts with no user, no progress, inactive, empty id |
| UserSession.SessionStore.LoadFromStorage | client/hooks/use-user-session.tsx:125-156 | a stored session is restored iff it has progress, its last activity is under 24 hours old and no certificate was generated; otherwise (also for unreadable text) the storage key is removed and the state is untouched |
| UserSession.SessionStore.AutoSave | client/hooks/use-user-session.tsx:87-91 | storage receives the session exactly when it is active and has progress, and is left alone otherwise |
| UserSession.SessionStore.StartSession | client/hooks/use-user-session.tsx:166-204 | the new session is active, user id = progress user id = session id, defaults "" / "driver" / "fr", current step 1, completed steps [0], no answers, no zones, duration 0, no certificate |
| UserSession.SessionStore.UpdateProgress | client/hooks/use-user-session.tsx:206-217 | without progress nothing changes; otherwise exactly the given fields are replaced and `lastActivity` is stamped, so an empty update only stamps the time |
| UserSession.SessionStore.SaveAnswer | client/hooks/use-user-session.tsx:219-235 | slot i holds the answer, every other slot keeps its value (holes when the list grew), the length is max(old, i+1), nothing else but `lastActivity` changes; no-op without progress |
| UserSession.SessionStore.CompleteStep | client/hooks/use-user-session.tsx:237-256 | the step is recorded once (no duplicates created), `currentStep` becomes max(old, step+1) and never decreases, a repeated call only stamps the time; no-op without progress |
| UserSession.SessionStore.CurrentStep | client/hooks/use-user-session.tsx:258-260 | the current step, 0 without progress |
| UserSession.SessionStore.GetCompletionPercentage | client/hooks/use-user-session.tsx:262-268 | the store's percentage is the session's completion percentage |
| UserSession.SessionStore.EndSession | client/hooks/use-user-session.tsx:270-280 | the certificate flag is set (when there is progress), the session becomes inactive, user and id are kept |
| UserSession.SessionStore.ExportSessionData | client/hooks/use-user-session.tsx:286-292 | the export carries the session, the export time and version "1.0" |
| UserSession.SessionStore.ClearSession | client/hooks/use-user-session.tsx:294-302 | the session is reset to the empty session and the storage key removed |
| UserSession.EndedSessionIsResumedOnReload | client/hooks/use-user-session.tsx:87-156 | after start, a step, end and the auto-saves, a reload within 24 hours restores the finished training as an active session |
| QcmQuestions.Assign | client/data/qcm-questions.ts:683-687 | assigning a language entry sets that key and leaves every other key's value |
| QcmQuestions.ResolveFrenchIsFallback | client/data/qcm-questions.ts:683-687 | for French the own value and the French fallback coincide |
| QcmQuestions.FillLanguages | client/data/qcm-questions.ts:683-705 | after one fallback loop every one of the nine languages holds its own truthy value, else the French, else the first, else empty; other keys are untouched |
| QcmQuestions.EnsureAllLanguages | client/data/qcm-questions.ts:678-714 | text and options get all nine languages by that fallback, the explanation likewise when present and stays absent otherwise; `id`, `correct`, `profiles` are kept |
| QcmQuestions.BaseQuestionsWellFormed | client/data/qcm-questions.ts:26-289 | each base question has a French text and four options per language, with `correct` in range |
| QcmQuestions.DriverQuestionsWellFormed | client/data/qcm-questions.ts:292-404 | the same for the driver questions |
| QcmQuestions.TechnicianQuestionsWellFormed | client/data/qcm-questions.ts:407-519 | the same for the technician questions |
| QcmQuestions.CleaningQuestionsWellFormed | client/data/qcm-questions.ts:522-597 | the same for the cleaning questions |
| QcmQuestions.AdministrativeQuestionsWellFormed | client/data/qcm-questions.ts:600-675 | the same for the administrative questions |
| QcmQuestions.PoolFacts | client/data/qcm-questions.ts:717-735 | every pooled question is untagged or tagged with exactly the profile; the pool has 8 (driver, technician), 7 (cleaning, administrative) or 5 questions |
| QcmQuestions.ProfileQuestions | client/data/qcm-questions.ts:721-734 | the profile's own list holds only questions tagged with exactly that profile, ids above 100; an unknown profile adds none (the `switch` has no default) |
| QcmQuestions.GetQuestionsForProfile | client/data/qcm-questions.ts:717-739 | the result is a permutation of base + profile questions, at most 12, never truncated with this bank, each untagged or tagged with the profile |
| QcmQuestions.Shuffle | client/data/qcm-questions.ts:737 | the random-comparator sort yields some permutation |
| QcmQuestions.AllQuestionsHaveDistinctIds | client/data/qcm-questions.ts:742-750 | `getAllQuestions` has 15 questions with ids 1-5, 101-103, 201-203, 301-302, 401-402, pairwise distinct |
| QcmQuestions.GetAllQuestions | client/data/qcm-questions.ts:742-750 | the bank has 15 questions and contains every question any profile's pool can draw |
| QcmQuestions.CorrectIndexesEveryOptionList | client/data/qcm-questions.ts:26-675 | every question of the bank is well formed: four options in every language and `correct` indexes each list |
| QcmQuestions.NormalisedOptionsKeepCorrect | client/data/qcm-questions.ts:690-695 | after the options fallback, every language's list has four entries and `correct` indexes it |
| QcmQuestions.LookupFindsEntry | client/data/qcm-questions.ts:692-693 | a language looked up in a record is one of the record's own values |
| Qcm.DisplayedQuestionIsComplete | client/pages/QCM.tsx:170-187 | for every bank question and any page language the fallback getters give a non-empty text and four options, and `correct` indexes them |
| Qcm.GetQuestionText | client/pages/QCM.tsx:170-177 | the page language's non-empty text, else the non-empty French text; the result is always one of the record's texts or ""; it is "" exactly when the own, French and first texts are all empty or missing |
| Qcm.GetQuestionOptions | client/pages/QCM.tsx:180-187 | the page language's options when present (an array is always truthy, even empty), else the French ones; always one of the record's lists, [] only for an empty record |
| Qcm.Score | client/pages/QCM.tsx:95-99 | the score never exceeds the number of recorded answers |
| Qcm.ScoreCountsCorrectAnswers | client/pages/QCM.tsx:95-99 | the reduce counts exactly the indices whose answer equals the question's `correct` |
| Qcm.AllCorrectGivesFullScore | client/pages/QCM.tsx:95-99 | all answers right gives a score equal to the number of answers |
| Qcm.ScorePercentage | client/pages/QCM.tsx:101-103 | the percentage lies in 0..100, is 0 until finished and 100 for a perfect score |
| Qcm.PassedIff | client/pages/QCM.tsx:112-150 | the rounded percentage reaches 70 iff 200·score ≥ 139·total |
| Qcm.DriverQuizPassMark | client/pages/QCM.tsx:101-103 | with eight questions, 6 right gives 75 (pass) and 5 right gives 63 (fail) |
| Qcm.QuizPage.constructor | client/pages/QCM.tsx:33-41 | the page draws its questions from the stored profile's pool, "driver" when none is stored, and starts at question 0 with nothing recorded |
| Qcm.QuizPage.HandleAnswerSelect | client/pages/QCM.tsx:44-48 | the selection becomes the clicked index |
| Qcm.QuizPage.HandleNext | client/pages/QCM.tsx:50-66 | without a selection nothing changes; otherwise the answer is written at the current index (other entries kept), `isCorrect` is selection == correct, the verdict is shown and the reveal timer armed |
| Qcm.QuizPage.Advance | client/pages/QCM.tsx:68-78 | the timer moves exactly one question forward and clears selection and verdict, or finishes after the last question; the index never reaches the question count |
| Qcm.QuizPage.CalculateScore | client/pages/QCM.tsx:95-99 | the page score is the number of correctly answered indices, at most the question count |
| Qcm.QuizPage.GetScorePercentage | client/pages/QCM.tsx:101-103 | the page percentage lies in 0..100 and is 0 until finished |
| Qcm.TakeQuiz | client/pages/QCM.tsx:44-78 | select, next and the timer for each question end the quiz finished with exactly the choices recorded in order, and the score counts the right ones |
| SafetyCourse.ZoneIds | client/pages/SafetyCourse.tsx:16-38 | the catalogue has three zones with the distinct ids ppe, restricted, signage |
| SafetyCourse.CompleteIffAllZonesVisited | client/pages/SafetyCourse.tsx:86 | for a duplicate-free list of catalogue ids, length 3 holds iff every zone is in it |
| SafetyCourse.SafetyCoursePage.constructor | client/pages/SafetyCourse.tsx:40-50 | no zone selected, none completed |
| SafetyCourse.SafetyCoursePage.HandleZoneClick | client/pages/SafetyCourse.tsx:62-71 | the clicked id is selected; it is appended only if absent, so the list only grows, stays duplicate-free and keeps first-click order; a repeated click leaves it unchanged |
| SafetyCourse.ClickZones | client/pages/SafetyCourse.tsx:62-86 | after any clicks on catalogue zones, the completed list holds exactly the clicked ids, and `canProceed` (which renders "continue", lines 246-258) holds iff every zone was clicked |
| SafetyCourse.CompleteIffAllClicked | client/pages/SafetyCourse.tsx:86 | the length test equals "every zone clicked" for the list the page keeps |
| SafetyCourse.SafetyCoursePage.CanProceed | client/pages/SafetyCourse.tsx:86 | on a page in its kept state, "continue" is offered exactly when every zone of the catalogue has been completed |
| ExportUtils.EscapeQuotes | client/utils/export-utils.ts:67 | doubling the quotes never shortens the text |
| ExportUtils.QuoteAll | client/utils/export-utils.ts:66-68 | one quoted field per cell |
| ExportUtils.RenderRows | client/utils/export-utils.ts:66-68 | one written record per row |
| ExportUtils.ParseQuotedBody | client/utils/export-utils.ts:67 | the reader of a quoted field (partner of the writer) always consumes input |
| ExportUtils.ParseFields | client/utils/export-utils.ts:66-68 | the reader of a record always consumes input |
| ExportUtils.QuotedBodyRoundTrip | client/utils/export-utils.ts:67 | escaping a text, closing the quote and reading it back gives the text and the untouched remainder |
| ExportUtils.QuoteFieldRoundTrip | client/utils/export-utils.ts:67 | removing the outer quotes and collapsing `""` recovers the field text exactly |
| ExportUtils.RenderRowUnfold | client/utils/export-utils.ts:66-68 | a record is its first quoted field, then a comma and the rest |
| ExportUtils.FieldReadsBack | client/utils/export-utils.ts:67 | a written field followed by anything but a quote reads back as its text |
| ExportUtils.RowRoundTrip | client/utils/export-utils.ts:66-68 | a written record followed by a line feed or the end reads back as its fields |
| ExportUtils.DocumentRoundTrip | client/utils/export-utils.ts:65-68 | reading back records joined by line feeds gives the records, field by field |
| ExportUtils.RoundDiv60 | client/utils/export-utils.ts:57 | `Math.round(seconds / 60)`: the nearest minute, halves rounded up |
| ExportUtils.ScoreCell | client/utils/export-utils.ts:55 | the score cell is empty iff the score is absent or 0 |
| ExportUtils.UserCells | client/utils/export-utils.ts:40-50 | seven cells starting with the session id, all empty after it without a user |
| ExportUtils.ProgressCells | client/utils/export-utils.ts:51-61 | ten cells; the progress column is the completion percentage, the score cell as above, and fixed defaults without progress |
| ExportUtils.SessionRow | client/utils/export-utils.ts:39-62 | 17 cells, as many as the header, starting with the session id, with the completion percentage and the score cell in their columns |
| ExportUtils.SessionRows | client/utils/export-utils.ts:39-62 | one record per session |
| ExportUtils.CsvExportReadsBack | client/utils/export-utils.ts:19-69 | reading the export back gives the 17 headers and then exactly one 17-field record per session, in input order |
| ExportUtils.GenerateCsvContent | client/utils/export-utils.ts:19-69 | the written CSV reads back to exactly the header record followed by the session records |
| ExportUtils.QcmScores | client/utils/export-utils.ts:265-267 | at most one score per session |
| ExportUtils.Durations | client/utils/export-utils.ts:269-271 | only non-zero durations, at most one per session |
| ExportUtils.ToMinutes | client/utils/export-utils.ts:271 | one minute value per duration |
| ExportUtils.ToReals | client/utils/export-utils.ts:279 | one real per score |
| ExportUtils.CalculateAnalytics | client/utils/export-utils.ts:263-282 | the input list is returned unchanged, total = count, completed = certified count ≤ total, and each average is 0 without values |
| ExportUtils.SumRealBounds | client/utils/export-utils.ts:279 | a sum of values within bounds lies within count times the bounds |
| ExportUtils.AverageWithin | client/utils/export-utils.ts:279-280 | an average lies between any bounds of its values |
| ExportUtils.AverageScoreWithinScores | client/utils/export-utils.ts:265-279 | the average score lies between the lowest and highest defined score |
| ExportUtils.SumMinutes | client/utils/export-utils.ts:271 | the total in minutes is the total in seconds over 60 |
| ExportUtils.AverageDurationInMinutes | client/utils/export-utils.ts:269-280 | the average duration is the sum of the non-zero durations over 60 times their number |
| ExportUtils.AverageOfMinutes | client/utils/export-utils.ts:280 | averaging the minute values is the seconds total over 60·count |
| ExportUtils.MinutesOverCount | client/utils/export-utils.ts:280 | dividing minutes by a count equals seconds over 60·count |
| ExportUtils.DivDiv | client/utils/export-utils.ts:280 | (x/a)/b = x/(a·b) for positive a, b |
| EnhancedAdminDashboard.FilterSessions | client/pages/EnhancedAdminDashboard.tsx:165-177 | the filtered list is no longer than the input |
| EnhancedAdminDashboard.Matches | client/pages/EnhancedAdminDashboard.tsx:166-176 | a kept session started within the period; with a profile or location chosen it must have a user (`user?.…` is undefined otherwise); with both on "all" only the period decides |
| EnhancedAdminDashboard.FilterKeepsExactly | client/pages/EnhancedAdminDashboard.tsx:165-177 | a session is kept iff it is in the input, has a start time at or after now − period days, and matches the profile and location filters ("all" matches everything) |
| EnhancedAdminDashboard.Sessions | client/pages/EnhancedAdminDashboard.tsx:181-187 | one training session per filtered record |
| EnhancedAdminDashboard.DeviceKeys | client/pages/EnhancedAdminDashboard.tsx:199-203 | one non-empty key per filtered session: "unknown" without a user or without a device, the device otherwise |
| EnhancedAdminDashboard.LanguageKeys | client/pages/EnhancedAdminDashboard.tsx:206-210 | one language key per filtered session, "unknown" when missing |
| EnhancedAdminDashboard.LocationKeys | client/pages/EnhancedAdminDashboard.tsx:213-217 | one non-empty key per filtered session: "unknown" without a user or without a location, the location otherwise |
| EnhancedAdminDashboard.ScoreDistribution | client/pages/EnhancedAdminDashboard.tsx:220-231 | one count per score range, five in all |
| EnhancedAdminDashboard.ScoreRangesPartition | client/pages/EnhancedAdminDashboard.tsx:220-231 | for integer scores in 0..100 the five range counts add up to the number of scores |
| EnhancedAdminDashboard.BucketCounts | client/pages/EnhancedAdminDashboard.tsx:220-231 | each in-range integer score falls in exactly one of the five ranges |
| EnhancedAdminDashboard.StartHours | client/pages/EnhancedAdminDashboard.tsx:190-196 | one local start hour per filtered session |
| EnhancedAdminDashboard.HourlyStats | client/pages/EnhancedAdminDashboard.tsx:190-196 | 24 entries, entry h for hour h |
| EnhancedAdminDashboard.HourlyStatsPartition | client/pages/EnhancedAdminDashboard.tsx:190-196 | the 24 hourly counts add up to the number of filtered sessions |
| EnhancedAdminDashboard.HourTotalIsBucketTotal | client/pages/EnhancedAdminDashboard.tsx:190-196 | the sum of the first n hourly entries is the sum of the counts of hours 0..n−1 |
| EnhancedAdminDashboard.BucketTotal | client/pages/EnhancedAdminDashboard.tsx:190-196 | hours drawn from 0..n−1 are each counted in exactly one bucket |
| EnhancedAdminDashboard.NoKeysNoOccurrences | client/pages/EnhancedAdminDashboard.tsx:190-196 | no sessions, no counts |
| EnhancedAdminDashboard.OccurrenceTotalStep | client/pages/EnhancedAdminDashboard.tsx:190-196 | one more session adds one to the total exactly when its hour is in range |
| EnhancedAdminDashboard.SortByCountDescending | client/pages/EnhancedAdminDashboard.tsx:270 | the in-place sort leaves a permutation ranked by descending count, ties in hour order (the sort is stable) |
| EnhancedAdminDashboard.InsertLast | client/pages/EnhancedAdminDashboard.tsx:270 | one insertion pass extends the ranked prefix by one, permutes the array and leaves the rest untouched |
| EnhancedAdminDashboard.SwapStep | client/pages/EnhancedAdminDashboard.tsx:270 | swapping the inserted entry one place left keeps the pass state |
| EnhancedAdminDashboard.SwapKeepsInserting | client/pages/EnhancedAdminDashboard.tsx:270 | the ranked parts stay ranked around the moved entry |
| EnhancedAdminDashboard.InsertingDone | client/pages/EnhancedAdminDashboard.tsx:270 | when the entry stops moving the prefix is ranked |
| EnhancedAdminDashboard.Swap | client/pages/EnhancedAdminDashboard.tsx:270 | two neighbours exchange places |
| EnhancedAdminDashboard.PeakHours | client/pages/EnhancedAdminDashboard.tsx:270 | three hours in ranking order, all from the hourly list, each ranking before every hour left out |
| EnhancedAdminDashboard.PeakHoursDominate | client/pages/EnhancedAdminDashboard.tsx:270 | every chosen count is at least every unchosen count |
| EnhancedAdminDashboard.DayBucket | client/pages/EnhancedAdminDashboard.tsx:238-255 | a day's completed count never exceeds its started count |
| EnhancedAdminDashboard.CompletionTrend | client/pages/EnhancedAdminDashboard.tsx:234-257 | 14 entries, each with completed ≤ started |
| EnhancedAdminDashboard.TrendDayAt | client/pages/EnhancedAdminDashboard.tsx:234-257 | each chart entry has completed ≤ started |
| EnhancedAdminDashboard.CompletionTrendDays | client/pages/EnhancedAdminDashboard.tsx:234-257 | entry k is the day starting 13 − k days before today's local midnight: oldest first, today last |
| EnhancedAdminDashboard.RateBounds | client/pages/EnhancedAdminDashboard.tsx:259-277 | a rate of a part of the total lies in 0..100 |
| EnhancedAdminDashboard.DropoutPlusConversion | client/pages/EnhancedAdminDashboard.tsx:268-269 | dropout + conversion = 100 for a non-empty selection |
| EnhancedAdminDashboard.AskedForHelp | client/pages/EnhancedAdminDashboard.tsx:259 | only a session with progress whose help flag is set counts as a help request |
| EnhancedAdminDashboard.Retried | client/pages/EnhancedAdminDashboard.tsx:260 | `(attemptsCount \|\| 1) > 1` holds exactly when there is progress with a count of at least 2; a missing or zero count never counts |
| EnhancedAdminDashboard.ComputeAnalytics | client/pages/EnhancedAdminDashboard.tsx:164-278 | totals, active ≤ total, completed ≤ total, averages, rates in 0..100 with dropout + conversion = 100, peak hours dominating the rest, tallies matching the keys and each summing to the filtered count, the trend and the distribution |
| AdminDashboard.FilterByPeriod | client/pages/AdminDashboard.tsx:123-129 | every listed session started no earlier than now − period days |
| AdminDashboard.FilterByPeriodKeepsExactly | client/pages/AdminDashboard.tsx:123-129 | a session is listed iff it is an input session with a start time at or after the cutoff |
| AdminDashboard.ProfileKeys | client/pages/AdminDashboard.tsx:134-141 | one profile key per session, "unknown" when missing |
| AdminDashboard.ProfileStats | client/pages/AdminDashboard.tsx:134-141 | each profile's count is its number of sessions, the counts add up to the filtered count, and no profile appears twice |
| AdminDashboard.CompletionTrend | client/pages/AdminDashboard.tsx:144-168 | seven day buckets |
| AdminDashboard.CompletionTrendDays | client/pages/AdminDashboard.tsx:144-168 | bucket k counts the certified sessions starting in the day 6 − k days before today's local midnight (oldest first), never more than all certified sessions |
| AdminDashboard.CompletionRate | client/pages/AdminDashboard.tsx:333-337 | the tile is undefined (NaN) exactly without sessions, otherwise at most 100, and 100 when every session is certified |
| AdminDashboard.ScoreBadge | client/pages/AdminDashboard.tsx:488-502 | "-" iff the score is absent or 0; green iff ≥ 80; orange iff 60..79; red for the other non-zero scores |
| AdminDashboard.BadgeMonotone | client/pages/AdminDashboard.tsx:488-497 | a higher score never gets a worse badge |
| AdminDashboard.TableLine | client/pages/AdminDashboard.tsx:455-519 | the seven cells: the full name, profile and company with "N/A" for a missing or empty value; the completion percentage; the badge with the score it prints, none for a missing or zero score; the rounded minutes, 0 without progress; "Terminé" exactly for a certified session, else "En cours" |
| AdminDashboard.SessionTable | client/pages/AdminDashboard.tsx:455 | the table lists the first min(10, n) filtered sessions in order |
| UseAdmin.DailyCode | client/hooks/use-admin.tsx:53-55 | a code is the prefix, a dash, the decimal seed, the two-digit day and one letter |
| UseAdmin.GetDailyAccessCodes | client/hooks/use-admin.tsx:47-59 | the three accounts' codes of a day are pairwise different |
| UseAdmin.ParseTwoMore | client/hooks/use-admin.tsx:53 | appending a two-digit day to the seed's digits multiplies the seed by 100 and adds the day |
| UseAdmin.DailyCodeReadsBack | client/hooks/use-admin.tsx:47-56 | the digits of a code read back as 100 × (year + month + day) + day |
| UseAdmin.SameCodeIff | client/hooks/use-admin.tsx:47-56 | two dates share a code iff they have the same day and the same year + month + day |
| UseAdmin.DailyCodesRepeat | client/hooks/use-admin.tsx:47-56 | a "daily" code recurs: 2025-02-15 and 2026-01-15 have the same three codes |
| UseAdmin.PermissionsNested | client/hooks/use-admin.tsx:70-92 | hse permissions ⊆ supervisor permissions ⊆ admin permissions, strictly at each step |
| UseAdmin.GetAdminAccount | client/hooks/use-admin.tsx:62-95 | exactly "admin", "supervisor" and "hse" have accounts, with roles super_admin, admin, moderator and their permission lists |
| UseAdmin.CheckCredentials | client/hooks/use-admin.tsx:148-155 | a sign-in is accepted iff the account exists and the password is its daily code or its fixed password |
| UseAdmin.CredentialsAccepted | client/hooks/use-admin.tsx:148-155 | the accepted (name, password) pairs spelled out account by account, and nothing else |
| UseAdmin.LoginMethodIff | client/hooks/use-admin.tsx:172-173 | the session records "daily_code" iff the daily code was typed and "static_password" iff the fixed password was |
| UseAdmin.LoginMethod | client/hooks/use-admin.tsx:172-173 | one of "daily_code" and "static_password", "daily_code" exactly when the typed password is the account's daily code |
| UseAdmin.AdminAuth.constructor | client/hooks/use-admin.tsx:107-108 | signed out, storage as found |
| UseAdmin.AdminAuth.CheckExistingSession | client/hooks/use-admin.tsx:115-139 | a stored session less than 8 hours old signs its user in; otherwise the slot is cleared and the state left alone |
| UseAdmin.AdminAuth.Login | client/hooks/use-admin.tsx:141-182 | valid credentials sign the user in with the account's role and permissions and store the session with its login method (a throwing storage rejects after signing in); invalid ones change nothing and return false |
| UseAdmin.AdminAuth.Logout | client/hooks/use-admin.tsx:184-188 | signed out and the stored session removed |
| UseAdmin.GrantedPermissions | client/hooks/use-admin.tsx:157-166 | a signed-in user holds exactly the account's permissions, always including every hse permission |
| UseAdmin.PermissionChecks | client/hooks/use-admin.tsx:190-198 | signed in, `hasPermission` holds iff the accepted account lists the permission and `isRole` iff it has the role; signed out, both are false |
| UseAdmin.AdminAuth.HasPermission | client/hooks/use-admin.tsx:190-193 | a granted permission implies a signed-in user whose permission list contains it, and the authenticated flag |
| UseAdmin.AdminAuth.IsRole | client/hooks/use-admin.tsx:195-198 | a matching role implies a signed-in user with that role, and the authenticated flag |
| AdminLogin.AdminLoginForm.constructor | client/components/AdminLogin.tsx:17-22 | empty fields, not loading, no error, no failed attempt |
| AdminLogin.AdminLoginForm.SetUsername | client/components/AdminLogin.tsx:113 | the typed name replaces the field and nothing else |
| AdminLogin.AdminLoginForm.SetPassword | client/components/AdminLogin.tsx:133 | the typed password replaces the field and nothing else |
| AdminLogin.AdminLoginForm.Locked | client/components/AdminLogin.tsx:56 | the lockout holds exactly from three failed attempts on |
| AdminLogin.AdminLoginForm.InputsEnabled | client/components/AdminLogin.tsx:116 | the inputs are enabled exactly when `isLoading \|\| attempts >= 3` is false |
| AdminLogin.AdminLoginForm.SubmitEnabled | client/components/AdminLogin.tsx:250 | the submit button is enabled exactly when `isLoading \|\| attempts >= 3 \|\| !username \|\| !password` is false, so only when the inputs are |
| AdminLogin.AdminLoginForm.HandleSubmit | client/components/AdminLogin.tsx:31-77 | empty fields only set the fill-in message; accepted credentials sign in and call onSuccess (or show the connection error when the login rejects); refused ones add one failed attempt, clear the password and show the lockout message from the third failure; attempts never decrease and loading ends |
| AdminLogin.ThreeFailuresLock | client/components/AdminLogin.tsx:53-62 | three refused submits lock a fresh form: lockout message shown, inputs disabled |
| Notifications.SoundFor | client/hooks/use-notifications.tsx:88-98 | the success sound exactly for success, the error sound exactly for errors, the notification sound otherwise |
| Notifications.Removed | client/hooks/use-notifications.tsx:104 | removing never lengthens the list |
| Notifications.MarkedRead | client/hooks/use-notifications.tsx:107-111 | same length; each position is the old notification, marked read when it has the id |
| Notifications.UnreadCount | client/hooks/use-notifications.tsx:117-119 | at most the number of notifications, and zero exactly when every notification is read |
| Notifications.ExpiresAutomatically | client/hooks/use-notifications.tsx:60 | a removal timer starts exactly for a present, positive duration (the `!= 0` test adds nothing) |
| Notifications.Clamp | client/hooks/use-notifications.tsx:127 | the progress lies in 0..100, equals the input inside that range, and is 0 below and 100 above |
| Notifications.UpdateOne | client/hooks/use-notifications.tsx:123-132 | a notification with another id is unchanged; the matching one keeps id, type, title, duration and read flag, and gets the clamped progress in 0..100, the new non-empty message or its old one, and the current time |
| Notifications.ProgressUpdated | client/hooks/use-notifications.tsx:121-134 | same length; each position is the old notification, updated when it has the id |
| Notifications.NotificationCenter.constructor | client/hooks/use-notifications.tsx:52 | the list starts empty |
| Notifications.NotificationCenter.AddNotification | client/hooks/use-notifications.tsx:76-101 | the new unread notification with the fresh id goes in front, the unread count grows by one, and the type's sound plays |
| Notifications.NotificationCenter.RemoveNotification | client/hooks/use-notifications.tsx:103-105 | the list becomes the list without that id |
| Notifications.NotificationCenter.MarkAsRead | client/hooks/use-notifications.tsx:107-111 | the id's notifications are marked read and the unread count does not grow |
| Notifications.NotificationCenter.ClearAll | client/hooks/use-notifications.tsx:113-115 | the list is empty |
| Notifications.NotificationCenter.GetUnreadCount | client/hooks/use-notifications.tsx:117-119 | the unread count is at most the number of notifications |
| Notifications.NotificationCenter.UpdateProgress | client/hooks/use-notifications.tsx:121-134 | the id's notifications are updated and the unread count is unchanged |
| Notifications.NotificationCenter.Notify | client/hooks/use-notifications.tsx:137-151 | a helper adds one notification of its type with the given or default duration in front |
| Notifications.NotificationCenter.NotifyProgress | client/hooks/use-notifications.tsx:153-155 | a progress notification goes in front and is never removed automatically |
| Notifications.HelperDurations | client/hooks/use-notifications.tsx:56-65 | without a duration the helpers' notifications expire after 5, 8, 6 or 4 seconds; a progress notification never does |
| Notifications.RemoveKeepsExactly | client/hooks/use-notifications.tsx:103-105 | a notification survives removal iff it was listed with another id; an unknown id changes nothing |
| Notifications.FilterKeepsAll | client/hooks/use-notifications.tsx:104 | when no notification has the id, removal returns the list unchanged |
| Notifications.UnreadAfterMarkAsRead | client/hooks/use-notifications.tsx:107-119 | after markAsRead the unread ones are exactly the previously unread ones with another id |
| Notifications.MarkAsReadIdempotent | client/hooks/use-notifications.tsx:107-111 | marking twice equals marking once; ids and positions are kept |
| Notifications.UpdateProgressKeepsUnread | client/hooks/use-notifications.tsx:121-134 | updating progress leaves the unread count unchanged |
| Notifications.UpdateProgressEffect | client/hooks/use-notifications.tsx:123-131 | the targeted notifications get a progress in 0..100 and keep their message when the new one is absent or empty; the others are unchanged |
| UseLanguage.FindLanguage | client/hooks/use-language.tsx:12-22 | a configuration is found iff the code is one of the nine languages, and it is that language's entry |
| UseLanguage.FindFrom | client/hooks/use-language.tsx:51 | `find` succeeds iff some entry has the code, and returns such an entry |
| UseLanguage.ConfigFor | client/hooks/use-language.tsx:62 | the language's own configuration, French for anything else |
| UseLanguage.Direction | client/hooks/use-language.tsx:71 | the page is right to left iff the language is Arabic |
| UseLanguage.Translate | client/hooks/use-language.tsx:65-67 | the language's non-empty entry, else the non-empty French entry, else the key; never empty for a non-empty key |
| UseLanguage.T | client/hooks/use-language.tsx:65-67 | `t` never returns "" for a non-empty key, returns the key or an entry of the language's or the French table, and treats an unknown language as French |
| UseLanguage.TranslateSources | client/hooks/use-language.tsx:65-67 | every translation is the key or an entry of the language's or the French table; in French it is the French entry |
| UseLanguage.TableFor | client/hooks/use-language.tsx:79-311 | a table exists iff the code is one of the nine languages |
| UseLanguage.LanguageState.constructor | client/hooks/use-language.tsx:46 | the page starts in French with storage as found |
| UseLanguage.LanguageState.LoadSaved | client/hooks/use-language.tsx:49-54 | a saved, non-empty, known code becomes the language; anything else leaves it |
| UseLanguage.LanguageState.SetLanguage | client/hooks/use-language.tsx:57-60 | the language switches and is saved |
| UseLanguage.LanguageState.LanguageConfigNow | client/hooks/use-language.tsx:62 | the configuration shown is the current language's |
| UseLanguage.ChoiceSurvivesReload | client/hooks/use-language.tsx:49-60 | a chosen language is still in use after a reload |
| UseLanguage.UnknownSavedLanguageIgnored | client/hooks/use-language.tsx:49-54 | any other saved value leaves the page in French |
| UseLanguage.QuizTextsFallBackToFrench | client/hooks/use-language.tsx:252-311 | in Italian, Portuguese, Dutch, Polish and Arabic the quiz texts come out in French |
| UseLanguage.ItalianFallsBack | client/hooks/use-language.tsx:252-263 | Italian quiz texts are the French ones |
| UseLanguage.PortugueseFallsBack | client/hooks/use-language.tsx:264-275 | Portuguese quiz texts are the French ones |
| UseLanguage.DutchFallsBack | client/hooks/use-language.tsx:276-287 | Dutch quiz texts are the French ones |
| UseLanguage.PolishFallsBack | client/hooks/use-language.tsx:288-299 | Polish quiz texts are the French ones |
| UseLanguage.ArabicFallsBack | client/hooks/use-language.tsx:300-311 | Arabic quiz texts are the French ones |
| UseLanguage.ShortTableFallback | client/hooks/use-language.tsx:66 | a table without the quiz keys shows the French quiz texts |
| UseLanguage.FrenchFallback | client/hooks/use-language.tsx:66 | a key missing from the language's table reads as its non-empty French entry |
| UseLanguage.FrenchQuizTexts | client/hooks/use-language.tsx:111-113 | the French quiz entries "Question" and "Bonne réponse !" |
| UseLanguage.ItalianLacksQuizKeys | client/hooks/use-language.tsx:252-263 | the Italian table has no quiz key |
| UseLanguage.PortugueseLacksQuizKeys | client/hooks/use-language.tsx:264-275 | the Portuguese table has no quiz key |
| UseLanguage.DutchLacksQuizKeys | client/hooks/use-language.tsx:276-287 | the Dutch table has no quiz key |
| UseLanguage.PolishLacksQuizKeys | client/hooks/use-language.tsx:288-299 | the Polish table has no quiz key |
| UseLanguage.ArabicLacksQuizKeys | client/hooks/use-language.tsx:300-311 | the Arabic table has no quiz key |
| UseLanguage.QuizTitleIsLiteralKey | client/hooks/use-language.tsx:65-67 | "qcm.title" translates to itself in every language |
| UseLanguage.KeyAbsentEverywhere | client/hooks/use-language.tsx:66 | a key in neither table comes back unchanged |
| UseLanguage.TitleAbsentLong | client/hooks/use-language.tsx:80-251 | the French, English, German and Spanish tables lack "qcm.title" |
| UseLanguage.TitleAbsentShort | client/hooks/use-language.tsx:252-311 | the five short tables lack "qcm.title" |
| UseLanguage.NoFullTableHasQuizTitle | client/hooks/use-language.tsx:80-251 | none of the four long tables has "qcm.title" |
| UseLanguage.ItalianHasOwnTitle | client/hooks/use-language.tsx:156 | a key the language has reads in that language (Italian home title, English quiz text) |
| UseLanguageFull.ItalianQuizTitle | client/hooks/use-language.ts:610 | the fuller tables give Italian its own quiz title, which differs from the .tsx variant's result |
| UseLanguageFull.OwnEntryInItalian | client/hooks/use-language.ts:65-67 | every non-empty Italian entry is what `t` returns in Italian |
| UseLanguageFull.TFull | client/hooks/use-language.ts:65-67 | `t` over the fuller tables never returns "" for a non-empty key and returns the key or an entry of the language's or the French table |
| UseLanguageFull.OwnEntryInArabic | client/hooks/use-language.ts:65-67 | every non-empty Arabic entry is what `t` returns in Arabic |
| UseLanguageFull.OwnEntryInFrench | client/hooks/use-language.ts:65-67 | every non-empty French entry is what `t` returns in French |
| UseLanguageFull.InItalian | client/hooks/use-language.ts:66 | `t` in Italian reads the Italian table with French behind it |
| UseLanguageFull.InArabic | client/hooks/use-language.ts:66 | `t` in Arabic reads the Arabic table with French behind it |
| UseLanguageFull.InFrench | client/hooks/use-language.ts:66 | `t` in French reads the French table |
| UseLanguageFull.ArabicQuizText | client/hooks/use-language.ts:1089 | Arabic has its own "qcm.correct" entry |
| UseLanguageFull.FrenchQuizText | client/hooks/use-language.ts:137 | French has its "qcm.correct" entry |
| DeviceDetection.OrientationOf | client/hooks/use-device-detection.tsx:60 | landscape iff the window is wider than tall |
| DeviceDetection.DetectDevice | client/hooks/use-device-detection.tsx:31-72 | exactly one of mobile, tablet, desktop, matching the device type; a tablet user agent gives a tablet, a mobile one (not tablet) a phone, and without either the width decides at 768 and 1024; the size and user agent are recorded |
| DeviceDetection.DeviceDetector.constructor | client/hooks/use-device-detection.tsx:16-28 | before detection the device is a desktop of the window's size, and auto-redirect is on |
| DeviceDetection.DeviceDetector.Detect | client/hooks/use-device-detection.tsx:74-94 | each detection stores the classification of the current size and user agent and leaves the redirect flag |
| DeviceDetection.DeviceDetector.SetShouldAutoRedirect | client/hooks/use-device-detection.tsx:28 | the flag is set and the device information kept |
| DeviceDetection.RedirectDecision | client/hooks/use-device-detection.tsx:109-138 | no redirect on /mobile, on /admin or with a desktop preference; otherwise a phone goes to /mobile after 500 ms, a tablet on the home page after 1000 ms, and nothing else moves |
| DeviceDetection.RedirectBlocked | client/hooks/use-device-detection.tsx:111-118 | the effect returns early on /mobile, on /admin and with a stored desktop preference, and for no other reason |
| DeviceDetection.DetectedRedirect | client/hooks/use-device-detection.tsx:47-53 | a detected desktop is never redirected; a tablet user agent never takes the phone path and is redirected exactly from the home page |
| DeviceDetection.InterfacePreference.constructor | client/hooks/use-device-detection.tsx:104-107 | storage and path as found |
| DeviceDetection.InterfacePreference.Preference | client/hooks/use-device-detection.tsx:117 | the stored preference, present iff the key is stored |
| DeviceDetection.InterfacePreference.ForceDesktopMode | client/hooks/use-device-detection.tsx:140-143 | the desktop preference is stored and the page is /dashboard |
| DeviceDetection.InterfacePreference.ForceMobileMode | client/hooks/use-device-detection.tsx:145-148 | the mobile preference is stored and the page is /mobile |
| DeviceDetection.InterfacePreference.ClearPreference | client/hooks/use-device-detection.tsx:150-152 | the preference is gone and the page unchanged |
| DeviceDetection.ForcedModesStay | client/hooks/use-device-detection.tsx:109-148 | after either forced mode no redirect happens, whatever the device |
| DeviceDetection.ClearedPreferenceRedirects | client/hooks/use-device-detection.tsx:109-152 | after clearing, a phone on the home page is redirected again |
| DeviceDetection.FixedClassesNonEmpty | client/hooks/use-device-detection.tsx:170-172 | the three fixed classes are non-empty and start with 'd' or 'o' |
| DeviceDetection.ContainerClasses | client/hooks/use-device-detection.tsx:169-179 | the class list is the three fixed classes followed by the width's size classes, none empty |
| DeviceDetection.FilterCandidates | client/hooks/use-device-detection.tsx:169-178 | dropping the empty candidates leaves the fixed classes and the size classes |
| DeviceDetection.TailFilter | client/hooks/use-device-detection.tsx:173-178 | dropping the empty size candidates leaves exactly the size classes |
| DeviceDetection.FilterSingle | client/hooks/use-device-detection.tsx:178 | filtering one element keeps it iff it passes |
| DeviceDetection.FilterPrefix | client/hooks/use-device-detection.tsx:178 | a prefix of passing elements survives filtering unchanged |
| DeviceDetection.FilterAppend | client/hooks/use-device-detection.tsx:178 | filtering distributes over concatenation |
| DeviceDetection.ScreenClassesNested | client/hooks/use-device-detection.tsx:173-176 | each size class is present iff the width reaches its breakpoint, and exactly one of screen-lg and screen-xl is present |
| DeviceDetection.OnlySizeClassesStartWithS | client/hooks/use-device-detection.tsx:169-176 | a class starting with 's' is in the list iff it is a size class |
| DeviceDetection.SizeClassMembership | client/hooks/use-device-detection.tsx:173-176 | each size class appears iff its breakpoint holds |
| MobileDashboard.TimerEvent | client/pages/MobileDashboard.tsx:56-64 | a timer event carries the drawn status, one of the listed users, profiles and locations, and the mobile supervisor |
| MobileDashboard.StatsAfter | client/pages/MobileDashboard.tsx:69-74 | an authorized event raises the authorized count and the people on site by one; any other status (expired included) raises the denied count; alerts never move |
| MobileDashboard.ScanEvent | client/pages/MobileDashboard.tsx:90-99 | a scanned badge is listed as authorized iff valid, else denied, with its name and profile, at the mobile scanner |
| MobileDashboard.StatusColor | client/pages/MobileDashboard.tsx:105-112 | unknown statuses get the slate fallback colour |
| MobileDashboard.StatusColorsDistinct | client/pages/MobileDashboard.tsx:105-112 | the three statuses have pairwise different colours, none of them the fallback |
| MobileDashboard.MobileDashboardPage.constructor | client/pages/MobileDashboard.tsx:40-48 | scanner tab, counters 23/156/7/3, no events, online |
| MobileDashboard.MobileDashboardPage.OnTimer | client/pages/MobileDashboard.tsx:55-79 | the event goes in front of at most nine older ones, the counters move as StatsAfter says, and a non-authorized event sounds once; the page invariant is kept |
| MobileDashboard.MobileDashboardPage.HandleScanResult | client/pages/MobileDashboard.tsx:90-103 | the scan event goes in front of at most nine older ones and the counters stay |
| MobileDashboard.MobileDashboardPage.HandleTabChange | client/pages/MobileDashboard.tsx:84-88 | only the active tab changes |
| MobileDashboard.MobileDashboardPage.MonitorEvents | client/pages/MobileDashboard.tsx:199 | the monitor lists the first min(8, n) recent events, in order |
| MobileDashboard.RunTimer | client/pages/MobileDashboard.tsx:55-82 | after a run of ticks the list is the newest ten events, authorized and denied counts grow by the authorized and the other events, people on site by the authorized ones, alerts stay, and one sound per non-authorized event |
| MobileDashboard.ScanFromScanner | client/pages/MobileDashboard.tsx:182-184 | a badge scanned on the page is listed as authorized exactly for the two unexpired demo badges, and the counters stay |
| QrScanner.ValidateQRCode | client/components/QRScanner.tsx:38-88 | the drawn demo badge stamped with the scan time; valid iff it is one of the first two |
| QrScanner.QRScannerState.constructor | client/components/QRScanner.tsx:26-32 | camera off, no result, no error, no recent scans |
| QrScanner.QRScannerState.StartCamera | client/components/QRScanner.tsx:90-115 | a click, then by the camera's answer: refused, scanning stops with the camera message and the error sound; no video element, scanning stays on with no stream kept; `play()` rejected, the stream is already kept so it stays open while scanning stops with the message and the error sound; playing, scanning with the stream open; results untouched |
| QrScanner.PlayFailureKeepsStream | client/components/QRScanner.tsx:104-122 | after a rejected `play()` the stream is open while the scanner shows the error and is stopped; only `stopCamera` releases it |
| QrScanner.QRScannerState.StopCamera | client/components/QRScanner.tsx:117-124 | stream released, scanning stopped, a click; results untouched |
| QrScanner.QRScannerState.SimulateScan | client/components/QRScanner.tsx:143-165 | the badge is displayed, goes in front of at most four older scans, is handed on, and plays the success sound iff valid; the invariant is kept |
| QrScanner.QRScannerState.AutoScanTick | client/components/QRScanner.tsx:127-141 | a tick scans only while the camera is on; otherwise nothing changes |
| QrScanner.QRScannerState.HandleManualScan | client/components/QRScanner.tsx:167-171 | a click, then one scan |
| QrScanner.QRScannerState.ClearResult | client/components/QRScanner.tsx:160-163 | the displayed result goes, everything else stays |
| QrScanner.ScanMany | client/components/QRScanner.tsx:143-165 | after a run of scans the recent list is the newest five, every result is handed on in order, and the error sound played exactly once per expired badge |

## Left out

- Timers (the per-minute duration updater, the 2-second quiz reveal, notification auto-removal, the login delay, the dashboard refresh, the scanner's 3-second interval and 5-second clear) are not modelled as timers. Each delayed continuation is a separate method called explicitly.
- Randomness is a parameter: the mock session generators, the badge pick, the timer event's fields, the session and notification ids, and `generateAccessCode`. The shuffle in `getQuestionsForProfile` is modelled only as "some permutation".
- Browser storage, `JSON.parse` and `JSON.stringify` are modelled as a slot that is absent, unreadable or holds a record. Serialisation is not modelled, so a parse error is the "unreadable" case.
- Local time uses a fixed offset from UTC. Daylight-saving changes are not modelled, and neither is `toLocaleDateString`/`toLocaleTimeString`/`toISOString` formatting: date and time labels are parameters or opaque strings.
- Floating point is not modelled. `Math.round` is exact integer rounding of a non-negative ratio, averages are `real`, and `toFixed` display is not modelled.
- The user-agent regular expressions of the device detection are taken as their two boolean results.
- The HTML/PDF report, the certificate, `downloadFile`, `window.open`/print and the mail link are not modelled: they are template strings and browser calls.
- Sounds and vibration are not modelled, except the sounds recorded by the scanner, the notification centre and the mobile dashboard.
- The mobile dashboard's `isOnline` flag is kept, but the page never changes it.
- The `action` button of a notification (a label and a callback) is not modelled.
- Presentation components without state logic are not modelled: the home, profile, introduction, certificate and business-case pages, the ROI calculator, the notification panel, the device switch and the fullscreen hook.
- The space-joined `className` string of the adaptive container is not modelled: its class list is modelled before the join.
- The `catch` of `validateQRCode` cannot be reached and is not modelled.
- QcmQuestions.EnsureAllLanguages: modelled although nothing in the repository calls `ensureAllLanguages`.
- ExportUtils.ProgressCells: the date columns take the start and last-activity times as always present, so the truthiness tests on them are not modelled.
- ExportUtils.UserCells: the visit date is taken as always present, so its truthiness test is not modelled.
- AdminDashboard.CompletionRate: the `NaN` the tile shows without sessions is modelled as `None`.
- UseLanguageFull.ItalianQuizTitle: states the Italian table's entry and leaves its translation to `OwnEntryInItalian`. Evaluating `t` over the full tables in a single proof is not attempted.
- MobileDashboard.StatusColor: states only the fallback colour; `StatusColorsDistinct` states the colours of the three statuses.
- UseAdmin.AdminAuth.CheckExistingSession: compares integer milliseconds against 8 hours rather than a floating-point hour difference; the results are the same.
