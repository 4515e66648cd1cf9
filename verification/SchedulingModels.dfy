/** The scheduler's own value types and the rules their validators enforce. */
module SchedulingModels {
  import opened Wrappers
  import opened Timeline
  import opened Sorting

  datatype Period = Morning | Afternoon | Evening | AnyPeriod

  /** An availability window, a busy interval or a free window: a half-open span of time. */
  datatype Interval = Interval(start: int, end: int) {
    predicate Contains(from: int, to: int) {
      start <= from && to <= end
    }
  }

  datatype AcademicTask = AcademicTask(id: string, title: string, deadline: int, estimatedMinutes: int, priority: int) {
    predicate Valid() {
      0 < estimatedMinutes && 1 <= priority <= 5
    }
  }

  datatype StudySession = StudySession(id: Option<string>, taskId: string, start: int, end: int, locked: bool) {
    function DurationMinutes(): int {
      (end - start) / MINUTE
    }
  }

  function DurationFor(taskId: string): StudySession -> int {
    (s: StudySession) => if s.taskId == taskId then s.DurationMinutes() else 0
  }

  /** The minutes that the sessions give to one task. */
  function MinutesFor(sessions: seq<StudySession>, taskId: string): int {
    SumOf(sessions, DurationFor(taskId))
  }

  lemma MinutesAppend(sessions: seq<StudySession>, session: StudySession, taskId: string)
    ensures MinutesFor(sessions + [session], taskId)
            == MinutesFor(sessions, taskId) + if session.taskId == taskId then session.DurationMinutes() else 0
  {
    SumAppend(sessions, session, DurationFor(taskId));
  }

  function MinutesOf(minutes: map<string, int>, taskId: string): int {
    if taskId in minutes then minutes[taskId] else 0
  }

  /** The dictionary holds the minutes of exactly the tasks that have a session. */
  ghost predicate TotalsOf(sessions: seq<StudySession>, minutes: map<string, int>) {
    && (forall id :: MinutesOf(minutes, id) == MinutesFor(sessions, id))
    && (forall id :: id in minutes <==> exists s :: s in sessions && s.taskId == id)
  }

  lemma TotalsGrow(sessions: seq<StudySession>, minutes: map<string, int>, session: StudySession)
    requires TotalsOf(sessions, minutes)
    ensures TotalsOf(sessions + [session],
                     minutes[session.taskId := MinutesOf(minutes, session.taskId) + session.DurationMinutes()])
  {
    var grown := minutes[session.taskId := MinutesOf(minutes, session.taskId) + session.DurationMinutes()];
    forall id
      ensures MinutesOf(grown, id) == MinutesFor(sessions + [session], id)
    {
      MinutesAppend(sessions, session, id);
    }
    assert session in sessions + [session];
    assert forall s :: s in sessions ==> s in sessions + [session];
  }

  method MinutesByTask(sessions: seq<StudySession>) returns (minutes: map<string, int>)
    ensures TotalsOf(sessions, minutes)
  {
    minutes := map[];
    for i := 0 to |sessions|
      invariant TotalsOf(sessions[..i], minutes)
    {
      assert sessions[..i + 1] == sessions[..i] + [sessions[i]];
      TotalsGrow(sessions[..i], minutes, sessions[i]);
      var session := sessions[i];
      minutes := minutes[session.taskId := MinutesOf(minutes, session.taskId) + session.DurationMinutes()];
    }
    assert sessions[..|sessions|] == sessions;
  }

  datatype SchedulingPreference = SchedulingPreference(
    earliest: int,
    latest: int,
    preferredSession: int,
    maximumSession: int,
    minimumBreak: int,
    weekendAvailable: bool,
    preferredPeriod: Period)
  {
    predicate Valid() {
      && 0 <= earliest < latest < DAY
      && 5 <= preferredSession <= maximumSession <= 480
      && 0 <= minimumBreak <= 240
    }

    function BreakTicks(): int {
      minimumBreak * MINUTE
    }
  }

  datatype SchedulingProblem = SchedulingProblem(
    tasks: seq<AcademicTask>,
    windows: seq<Interval>,
    busy: seq<Interval>,
    preferences: SchedulingPreference,
    locked: seq<StudySession>,
    now: int)
  {
    predicate Valid() {
      && preferences.Valid()
      && (forall t :: t in tasks ==> t.Valid())
      && (forall w :: w in windows ==> w.start < w.end)
      && (forall b :: b in busy ==> b.start < b.end)
      && (forall s :: s in locked ==> s.start < s.end)
    }

    predicate DistinctTaskIds() {
      forall i, j :: 0 <= i < j < |tasks| ==> tasks[i].id != tasks[j].id
    }
  }

  /** A block stays on one local day, inside the study hours of a day that may be used. */
  predicate InStudyHours(preferences: SchedulingPreference, start: int, end: int) {
    && DayOf(start) == DayOf(end)
    && preferences.earliest <= TimeOfDay(start)
    && TimeOfDay(end) <= preferences.latest
    && (preferences.weekendAvailable || Weekday(start) < 5)
  }

  /** Two blocks leave at least the given gap between them. */
  predicate Separated(start: int, end: int, otherStart: int, otherEnd: int, gap: int) {
    end + gap <= otherStart || otherEnd + gap <= start
  }
}
