/** The training-session store of client/hooks/use-user-session.tsx: one
    `TrainingSession` value that every operation replaces, plus the browser
    storage slot it is persisted to. The clock, the random session id and the
    storage contents are parameters. */
module UserSession {
  import opened Common

  datatype UserProfile = UserProfile(
    id: string,
    firstName: string,
    lastName: string,
    email: Option<string>,
    profileType: string,
    company: Option<string>,
    visitDate: int,
    language: string)

  /** Sparse answers: `None` is a hole left by an out-of-order `saveAnswer`. */
  datatype TrainingProgress = TrainingProgress(
    userId: string,
    currentStep: int,
    completedSteps: seq<int>,
    profileSelected: bool,
    safetyZonesCompleted: seq<string>,
    qcmStarted: bool,
    qcmCompleted: bool,
    qcmAnswers: seq<Option<int>>,
    qcmScore: Option<int>,
    startTime: int,
    lastActivity: int,
    sessionDuration: int,
    certificateGenerated: bool)

  datatype TrainingSession = TrainingSession(
    user: Option<UserProfile>,
    progress: Option<TrainingProgress>,
    isActive: bool,
    sessionId: string)

  const EmptySession := TrainingSession(None, None, false, "")

  /** Number of training steps counted by the completion percentage. */
  const TotalSteps: nat := 6

  /** A stored session older than this (by last activity) is discarded. */
  const SessionLifetimeMs: int := 24 * 60 * 60 * 1000

  /** The "safety-training-session" storage slot: nothing, text that does not
      parse as a session, or a saved session. */
  datatype StoredEntry = Absent | Unreadable | Saved(saved: TrainingSession)

  /** `Partial<UserProfile>` as handed to `startSession`. */
  datatype ProfileInput = ProfileInput(
    firstName: Option<string>,
    lastName: Option<string>,
    email: Option<string>,
    profileType: Option<string>,
    company: Option<string>,
    language: Option<string>)

  /** `Partial<TrainingProgress>` as handed to `updateProgress`. */
  datatype ProgressUpdate = ProgressUpdate(
    userId: Option<string>,
    currentStep: Option<int>,
    completedSteps: Option<seq<int>>,
    profileSelected: Option<bool>,
    safetyZonesCompleted: Option<seq<string>>,
    qcmStarted: Option<bool>,
    qcmCompleted: Option<bool>,
    qcmAnswers: Option<seq<Option<int>>>,
    qcmScore: Option<int>,
    startTime: Option<int>,
    sessionDuration: Option<int>,
    certificateGenerated: Option<bool>)

  const NoChange := ProgressUpdate(None, None, None, None, None, None, None, None, None, None, None, None)

  function Pick<T>(update: Option<T>, current: T): T {
    if update.Some? then update.value else current
  }

  /** The restore rule of the loader: a saved session comes back only if it
      has progress, was active less than 24 hours ago and has no certificate. */
  predicate Restorable(entry: StoredEntry, now: int) {
    && entry.Saved?
    && entry.saved.progress.Some?
    && now - entry.saved.progress.value.lastActivity < SessionLifetimeMs
    && !entry.saved.progress.value.certificateGenerated
  }

  /** `Math.round(completedSteps.length / 6 * 100)`, 0 without progress. */
  function CompletionPercentage(s: TrainingSession): (r: nat)
    ensures s.progress.None? ==> r == 0
    ensures s.progress.Some? && s.progress.value.completedSteps == [] ==> r == 0
  {
    if s.progress.None? then 0 else Percent(|s.progress.value.completedSteps|, TotalSteps)
  }

  /** The percentage stays within 100 as long as the completed steps are
      distinct steps of the flow 0..5. */
  lemma CompletionWithinHundred(s: TrainingSession)
    requires s.progress.Some? ==> NoDup(s.progress.value.completedSteps)
    requires s.progress.Some? ==>
      forall i :: 0 <= i < |s.progress.value.completedSteps| ==> 0 <= s.progress.value.completedSteps[i] < 6
    ensures CompletionPercentage(s) <= 100
  {
    if s.progress.Some? {
      var steps := s.progress.value.completedSteps;
      NoDupBoundedBy(steps, {0, 1, 2, 3, 4, 5});
    }
  }

  /** `completeStep` accepts any step, including 6 ("completed") from the step
      numbering; seven distinct completed steps give 117 percent. */
  lemma CompletionCanExceedHundred()
    ensures CompletionPercentage(TrainingSession(None, Some(TrainingProgress(
      "u", 7, [0, 1, 2, 3, 4, 5, 6], false, [], false, false, [], None, 0, 0, 0, false)), true, "u")) == 117
  {
  }

  // Views of a session used by the admin dashboards. A progress record
  // always carries its start time, so `progress?.startTime` is set exactly
  // when there is progress.

  predicate Certified(s: TrainingSession) {
    s.progress.Some? && s.progress.value.certificateGenerated
  }

  /** Started at or after the instant `cutoff`. */
  predicate StartedSince(s: TrainingSession, cutoff: int) {
    s.progress.Some? && s.progress.value.startTime >= cutoff
  }

  /** Started within the day beginning at local midnight `dayStart`. */
  predicate StartedOnDay(s: TrainingSession, dayStart: int) {
    s.progress.Some? && dayStart <= s.progress.value.startTime < dayStart + DayMs
  }

  /** The snapshot returned by `exportSessionData`. */
  datatype SessionExport = SessionExport(session: TrainingSession, exportDate: int, version: string)

  class SessionStore {
    var session: TrainingSession
    var stored: StoredEntry

    /** The provider's initial state, before the mount effect reads storage. */
    constructor (initialStorage: StoredEntry)
      ensures session == EmptySession && stored == initialStorage
    {
      session := EmptySession;
      stored := initialStorage;
    }

    /** `loadSessionFromStorage` (also `resumeSession`). */
    method LoadFromStorage(now: int) returns (restored: bool)
      modifies this
      ensures restored == Restorable(old(stored), now)
      ensures restored ==> session == old(stored).saved && stored == old(stored)
      ensures !restored ==> session == old(session) && stored == Absent
    {
      match stored
      case Absent =>
        restored := false;
      case Unreadable =>
        stored := Absent;
        restored := false;
      case Saved(saved) =>
        var lastActivity := if saved.progress.Some? then saved.progress.value.lastActivity else 0;
        if now - lastActivity < SessionLifetimeMs && saved.progress.Some? && !saved.progress.value.certificateGenerated {
          session := saved;
          restored := true;
        } else {
          stored := Absent;
          restored := false;
        }
    }

    /** The auto-save effect: runs after every change, writes only while the
        session is active and has progress. */
    method AutoSave()
      modifies this`stored
      ensures stored == if session.isActive && session.progress.Some? then Saved(session) else old(stored)
    {
      if session.isActive && session.progress.Some? {
        stored := Saved(session);
      }
    }

    method StartSession(profile: ProfileInput, sessionId: string, now: int)
      modifies this`session
      ensures session.isActive && session.sessionId == sessionId
      ensures session.user.Some? && session.progress.Some?
      ensures session.user.value == UserProfile(
        sessionId,
        OrElse(profile.firstName, ""),
        OrElse(profile.lastName, ""),
        profile.email,
        OrElse(profile.profileType, "driver"),
        profile.company,
        now,
        OrElse(profile.language, "fr"))
      ensures session.progress.value == TrainingProgress(
        sessionId, 1, [0], false, [], false, false, [], None, now, now, 0, false)
    {
      var user := UserProfile(
        sessionId,
        OrElse(profile.firstName, ""),
        OrElse(profile.lastName, ""),
        profile.email,
        OrElse(profile.profileType, "driver"),
        profile.company,
        now,
        OrElse(profile.language, "fr"));
      var progress := TrainingProgress(
        sessionId, 1, [0], false, [], false, false, [], None, now, now, 0, false);
      session := TrainingSession(Some(user), Some(progress), true, sessionId);
    }

    /** Merges the given fields into the progress and stamps `lastActivity`;
        nothing happens without progress. */
    method UpdateProgress(u: ProgressUpdate, now: int)
      modifies this`session
      ensures old(session).progress.None? ==> session == old(session)
      ensures old(session).progress.Some? ==>
        var p := old(session).progress.value;
        session == old(session).(progress := Some(TrainingProgress(
          Pick(u.userId, p.userId),
          Pick(u.currentStep, p.currentStep),
          Pick(u.completedSteps, p.completedSteps),
          Pick(u.profileSelected, p.profileSelected),
          Pick(u.safetyZonesCompleted, p.safetyZonesCompleted),
          Pick(u.qcmStarted, p.qcmStarted),
          Pick(u.qcmCompleted, p.qcmCompleted),
          Pick(u.qcmAnswers, p.qcmAnswers),
          if u.qcmScore.Some? then u.qcmScore else p.qcmScore,
          Pick(u.startTime, p.startTime),
          now,
          Pick(u.sessionDuration, p.sessionDuration),
          Pick(u.certificateGenerated, p.certificateGenerated))))
      ensures old(session).progress.Some? && u == NoChange ==>
        session == old(session).(progress := Some(old(session).progress.value.(lastActivity := now)))
    {
      if session.progress.Some? {
        var p := session.progress.value;
        var merged := TrainingProgress(
          Pick(u.userId, p.userId),
          Pick(u.currentStep, p.currentStep),
          Pick(u.completedSteps, p.completedSteps),
          Pick(u.profileSelected, p.profileSelected),
          Pick(u.safetyZonesCompleted, p.safetyZonesCompleted),
          Pick(u.qcmStarted, p.qcmStarted),
          Pick(u.qcmCompleted, p.qcmCompleted),
          Pick(u.qcmAnswers, p.qcmAnswers),
          if u.qcmScore.Some? then u.qcmScore else p.qcmScore,
          Pick(u.startTime, p.startTime),
          now,
          Pick(u.sessionDuration, p.sessionDuration),
          Pick(u.certificateGenerated, p.certificateGenerated));
        session := session.(progress := Some(merged));
      }
    }

    /** Writes slot `questionIndex` of a copy of the answers, growing it with
        holes when the index lies beyond its end. */
    method SaveAnswer(questionIndex: nat, answer: int, now: int)
      modifies this`session
      ensures old(session).progress.None? ==> session == old(session)
      ensures old(session).progress.Some? ==>
        var p := old(session).progress.value;
        && session.user == old(session).user
        && session.isActive == old(session).isActive
        && session.sessionId == old(session).sessionId
        && session.progress.Some?
        && session.progress.value == p.(qcmAnswers := session.progress.value.qcmAnswers, lastActivity := now)
        && |session.progress.value.qcmAnswers| == Max(|p.qcmAnswers|, questionIndex + 1)
        && session.progress.value.qcmAnswers[questionIndex] == Some(answer)
        && (forall j :: 0 <= j < |session.progress.value.qcmAnswers| && j != questionIndex ==>
              session.progress.value.qcmAnswers[j] == if j < |p.qcmAnswers| then p.qcmAnswers[j] else None)
    {
      if session.progress.Some? {
        var p := session.progress.value;
        var answers := p.qcmAnswers;
        if questionIndex < |answers| {
          answers := answers[questionIndex := Some(answer)];
        } else {
          answers := answers + seq(questionIndex - |answers|, _ => None) + [Some(answer)];
        }
        session := session.(progress := Some(p.(qcmAnswers := answers, lastActivity := now)));
      }
    }

    /** Records `step` once and moves `currentStep` to at least `step + 1`. */
    method CompleteStep(step: int, now: int)
      modifies this`session
      ensures old(session).progress.None? ==> session == old(session)
      ensures old(session).progress.Some? ==>
        var p := old(session).progress.value;
        && session.user == old(session).user
        && session.isActive == old(session).isActive
        && session.sessionId == old(session).sessionId
        && session.progress == Some(p.(
             currentStep := Max(p.currentStep, step + 1),
             completedSteps := if step in p.completedSteps then p.completedSteps else p.completedSteps + [step],
             lastActivity := now))
      // what the callers rely on: recorded, monotone, duplicate-free, idempotent
      ensures old(session).progress.Some? ==>
        var p := old(session).progress.value;
        var q := session.progress.value;
        && step in q.completedSteps
        && q.currentStep >= p.currentStep && q.currentStep >= step + 1
        && (forall x :: x in p.completedSteps ==> x in q.completedSteps)
        && (NoDup(p.completedSteps) ==> NoDup(q.completedSteps))
        && (step in p.completedSteps && p.currentStep >= step + 1 ==> q == p.(lastActivity := now))
    {
      if session.progress.Some? {
        var p := session.progress.value;
        var completed := p.completedSteps;
        if step !in completed {
          completed := completed + [step];
        }
        session := session.(progress := Some(p.(
          currentStep := Max(p.currentStep, step + 1),
          completedSteps := completed,
          lastActivity := now)));
      }
    }

    /** `session.progress?.currentStep || 0`. */
    function CurrentStep(): (r: int)
      reads this
      ensures session.progress.None? ==> r == 0
      ensures session.progress.Some? ==> r == session.progress.value.currentStep
    {
      if session.progress.Some? then session.progress.value.currentStep else 0
    }

    function GetCompletionPercentage(): (r: nat)
      reads this
      ensures r == CompletionPercentage(session)
    {
      CompletionPercentage(session)
    }

    /** Marks the certificate as generated (through `updateProgress`), then
        deactivates the session while keeping its data. */
    method EndSession(now: int)
      modifies this`session
      ensures session.user == old(session).user && session.sessionId == old(session).sessionId
      ensures !session.isActive
      ensures old(session).progress.None? ==> session.progress.None?
      ensures old(session).progress.Some? ==>
        session.progress == Some(old(session).progress.value.(certificateGenerated := true, lastActivity := now))
    {
      if session.progress.Some? {
        var u := NoChange.(certificateGenerated := Some(true));
        UpdateProgress(u, now);
      }
      session := session.(isActive := false);
    }

    function ExportSessionData(now: int): (r: SessionExport)
      reads this
      ensures r.session == session && r.exportDate == now && r.version == "1.0"
    {
      SessionExport(session, now, "1.0")
    }

    method ClearSession()
      modifies this
      ensures session == EmptySession && stored == Absent
    {
      stored := Absent;
      session := EmptySession;
    }
  }

  /** What the source does after `endSession`: the auto-save effect no longer
      writes (the session is inactive), so storage keeps the last active
      snapshot, which still says "no certificate"; reloading within 24 hours
      therefore resumes the finished training as an active session. */
  method EndedSessionIsResumedOnReload(profile: ProfileInput, id: string, t0: int) returns (resumed: bool, active: bool)
    ensures resumed && active
  {
    var store := new SessionStore(Absent);
    store.StartSession(profile, id, t0);
    store.AutoSave();
    store.CompleteStep(1, t0 + 1);
    store.AutoSave();
    store.EndSession(t0 + 2);
    store.AutoSave();
    assert store.stored.saved.progress.value.lastActivity == t0 + 1;
    var reloaded := new SessionStore(store.stored);
    resumed := reloaded.LoadFromStorage(t0 + 3);
    active := reloaded.session.isActive;
  }
}
