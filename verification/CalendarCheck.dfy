/** The browser's incremental check of one moved block, and its agreement with the server's check
    of the whole schedule. */
module CalendarCheck {
  import opened Wrappers
  import opened Timeline
  import opened SchedulingModels
  import opened Sorting
  import opened FreeTime
  import opened AdjustmentChecker
  import opened SessionIds
  import opened SchedulerTheorems

  /** Study hours as clock minutes, as the page receives them. */
  datatype CalendarPreferences = CalendarPreferences(earliest: int, latest: int, maximumSession: int, minimumBreak: int)

  function PagePreferences(preferences: SchedulingPreference): CalendarPreferences {
    CalendarPreferences(preferences.earliest / MINUTE, preferences.latest / MINUTE,
                        preferences.maximumSession, preferences.minimumBreak)
  }

  function SessionKey(session: StudySession): string {
    if HasOwnId(session) then session.id.value
    else session.taskId + "-" + IsoText(session.start)
  }

  function ClockMinutes(moment: int): int {
    TimeOfDay(moment) / MINUTE
  }

  function Keep<T>(xs: seq<T>, keep: T -> bool): seq<T> {
    if xs == [] then []
    else Keep(xs[..|xs| - 1], keep) + if keep(xs[|xs| - 1]) then [xs[|xs| - 1]] else []
  }

  function OtherKey(key: string): StudySession -> bool {
    (s: StudySession) => SessionKey(s) != key
  }

  function OtherSessions(sessions: seq<StudySession>, key: string): seq<StudySession> {
    Keep(sessions, OtherKey(key))
  }

  predicate Conflicts(session: StudySession, start: int, end: int, gap: int) {
    start < session.end + gap && session.start - gap < end
  }

  function FirstConflict(sessions: seq<StudySession>, start: int, end: int, gap: int): Option<StudySession> {
    if sessions == [] then None
    else if Conflicts(sessions[0], start, end, gap) then Some(sessions[0])
    else FirstConflict(sessions[1..], start, end, gap)
  }

  function TicksIf(taskId: string): StudySession -> int {
    (s: StudySession) => if s.taskId == taskId then s.end - s.start else 0
  }

  /** The rules that concern the block alone, in the order the page checks them. */
  function OwnFault(start: int, duration: int, busy: seq<Interval>, window: Interval,
                    preferences: CalendarPreferences, deadline: Option<int>): Option<Fault>
  {
    var end := start + duration * MINUTE;
    if start < window.start || window.end < end then Some(OutsideWindow)
    else if DayOf(start) != DayOf(end)
            || ClockMinutes(start) < preferences.earliest || preferences.latest < ClockMinutes(end)
    then Some(OutsideHours)
    else if preferences.maximumSession < duration then Some(TooLong)
    else if deadline.Some? && deadline.value < end then Some(PastDeadline)
    else if exists b :: b in busy && Overlaps(start, end, b.start, b.end) then Some(OverlapsBusy)
    else None
  }

  /** The rules that involve the other blocks. Minutes are compared as ticks: the page divides by
      60,000 milliseconds without rounding. */
  function NeighbourFault(taskId: string, start: int, duration: int, others: seq<StudySession>,
                          minimumBreak: int, estimatedMinutes: Option<int>): Option<Fault>
  {
    var end := start + duration * MINUTE;
    var conflict := FirstConflict(others, start, end, minimumBreak * MINUTE);
    if conflict.Some? then
      if Overlaps(start, end, conflict.value.start, conflict.value.end) then Some(BlocksOverlap)
      else Some(BreakTooShort)
    else if estimatedMinutes.Some? && estimatedMinutes.value != 0
            && estimatedMinutes.value * MINUTE < SumOf(others, TicksIf(taskId)) + duration * MINUTE
    then Some(ExceedsEstimate)
    else None
  }

  function ValidateSessionPlacement(
    key: string, taskId: string, start: int, duration: int, sessions: seq<StudySession>, busy: seq<Interval>,
    window: Interval, preferences: CalendarPreferences, deadline: Option<int>,
    estimatedMinutes: Option<int>): Option<Fault>
  {
    var own := OwnFault(start, duration, busy, window, preferences, deadline);
    if own.Some? then own
    else NeighbourFault(taskId, start, duration, OtherSessions(sessions, key), preferences.minimumBreak,
                        estimatedMinutes)
  }

  // ----- The schedule with one block moved

  function Moved(session: StudySession, start: int, duration: int): StudySession {
    session.(start := start, end := start + duration * MINUTE)
  }

  predicate HasOwnId(session: StudySession) {
    session.id.Some? && session.id.value != ""
  }

  /** No other block has the key of block k. */
  predicate KeyIsOwn(sessions: seq<StudySession>, k: nat)
    requires k < |sessions|
  {
    forall j :: 0 <= j < |sessions| && j != k ==> SessionKey(sessions[j]) != SessionKey(sessions[k])
  }

  /** A block with a positive length whose start is within the range of written instants. */
  predicate Datable(session: StudySession) {
    session.start < session.end && 0 <= session.start < Power(ISO_WIDTH)
  }

  /** Two blocks that both have ids, or that both go by their task and start. */
  predicate SameKindOfKey(a: StudySession, b: StudySession) {
    (HasOwnId(a) && HasOwnId(b)) || (!HasOwnId(a) && !HasOwnId(b) && Datable(a) && Datable(b))
  }

  /** The same, asked only where an id might spell another block's task and start. */
  predicate NoIdSpellsAKey(sessions: seq<StudySession>, k: nat)
    requires k < |sessions|
  {
    forall j :: 0 <= j < |sessions| && j != k && !SameKindOfKey(sessions[j], sessions[k]) ==>
      SessionKey(sessions[j]) != SessionKey(sessions[k])
  }

  predicate WholeMinutes(problem: SchedulingProblem, sessions: seq<StudySession>) {
    && problem.preferences.earliest % MINUTE == 0
    && problem.preferences.latest % MINUTE == 0
    && forall s :: s in sessions ==> s.start % MINUTE == 0 && s.end % MINUTE == 0
  }

  function Rest(sessions: seq<StudySession>, k: nat): seq<StudySession>
    requires k < |sessions|
  {
    sessions[..k] + sessions[k + 1..]
  }

  lemma {:induction false} KeepAll<T>(xs: seq<T>, keep: T -> bool)
    requires forall j :: 0 <= j < |xs| ==> keep(xs[j])
    ensures Keep(xs, keep) == xs
  {
    if xs != [] {
      KeepAll(xs[..|xs| - 1], keep);
    }
  }

  lemma {:induction false} KeepAllButOne<T>(xs: seq<T>, k: nat, keep: T -> bool)
    requires k < |xs| && !keep(xs[k]) && forall j :: 0 <= j < |xs| && j != k ==> keep(xs[j])
    ensures Keep(xs, keep) == xs[..k] + xs[k + 1..]
  {
    var front, last := xs[..|xs| - 1], xs[|xs| - 1];
    if k == |xs| - 1 {
      KeepAll(front, keep);
    } else {
      KeepAllButOne(front, k, keep);
      assert xs[..k] + xs[k + 1..] == (front[..k] + front[k + 1..]) + [last];
    }
  }

  lemma {:induction false} KeptAreThere<T>(xs: seq<T>, keep: T -> bool)
    ensures forall x :: x in Keep(xs, keep) ==> x in xs
  {
    if xs != [] {
      KeptAreThere(xs[..|xs| - 1], keep);
    }
  }

  /** When no other block has the block's key, filtering by it leaves exactly the other blocks. */
  lemma OthersAreTheRest(sessions: seq<StudySession>, k: nat)
    requires k < |sessions| && KeyIsOwn(sessions, k)
    ensures OtherSessions(sessions, SessionKey(sessions[k])) == Rest(sessions, k)
  {
    KeepAllButOne(sessions, k, OtherKey(SessionKey(sessions[k])));
  }

  lemma KeysOfOneKindDiffer(a: StudySession, b: StudySession, gap: int)
    requires SameKindOfKey(a, b) && 0 <= gap && DifferentBlocks()(a, b) && ApartBy(gap)(a, b)
    ensures SessionKey(a) != SessionKey(b)
  {
    if !HasOwnId(a) && SessionKey(a) == SessionKey(b) {
      IsoTextLast(a.taskId + "-", a.start, b.taskId + "-", b.start);
    }
  }

  /** In an acceptable schedule blocks never share a key, unless an id spells another block's. */
  lemma KeysAreOwn(problem: SchedulingProblem, sessions: seq<StudySession>, k: nat)
    requires problem.Valid() && k < |sessions| && Acceptable(problem, sessions) && NoIdSpellsAKey(sessions, k)
    ensures KeyIsOwn(sessions, k)
  {
    var gap := problem.preferences.BreakTicks();
    forall j | 0 <= j < |sessions| && j != k && SameKindOfKey(sessions[j], sessions[k])
      ensures SessionKey(sessions[j]) != SessionKey(sessions[k])
    {
      if j < k {
        assert DifferentBlocks()(sessions[j], sessions[k]) && ApartBy(gap)(sessions[j], sessions[k]);
        KeysOfOneKindDiffer(sessions[j], sessions[k], gap);
      } else {
        assert DifferentBlocks()(sessions[k], sessions[j]) && ApartBy(gap)(sessions[k], sessions[j]);
        KeysOfOneKindDiffer(sessions[k], sessions[j], gap);
      }
    }
  }

  lemma ReplacePairwise(sessions: seq<StudySession>, k: nat, m: StudySession,
                        related: (StudySession, StudySession) -> bool)
    requires k < |sessions|
    requires forall a, b :: related(a, b) ==> related(b, a)
    ensures Pairwise(sessions[k := m], related)
            <==> Pairwise(Rest(sessions, k), related) && forall s :: s in Rest(sessions, k) ==> related(s, m)
  {
    var a, b := sessions[..k], sessions[k + 1..];
    assert sessions[k := m] == a + ([m] + b);
    PairwiseConcat(a, [m] + b, related);
    PairwiseConcat([m], b, related);
    PairwiseConcat(a, b, related);
    assert m in [m];
  }

  lemma ReplaceMinutes(sessions: seq<StudySession>, k: nat, m: StudySession, amount: StudySession -> int)
    requires k < |sessions|
    ensures SumOf(sessions[k := m], amount) == SumOf(Rest(sessions, k), amount) + amount(m)
  {
    var a, b := sessions[..k], sessions[k + 1..];
    assert sessions[k := m] == (a + [m]) + b;
    SumConcat(a + [m], b, amount);
    SumAppend(a, m, amount);
    SumConcat(a, b, amount);
  }

  lemma {:induction false} TicksAreMinutes(sessions: seq<StudySession>, taskId: string)
    requires forall s :: s in sessions ==> s.start % MINUTE == 0 && s.end % MINUTE == 0
    ensures SumOf(sessions, TicksIf(taskId)) == MinutesFor(sessions, taskId) * MINUTE
  {
    if sessions != [] {
      var front, last := sessions[..|sessions| - 1], sessions[|sessions| - 1];
      assert last in sessions;
      TicksAreMinutes(front, taskId);
      WholeDuration(last);
    }
  }

  lemma WholeDuration(session: StudySession)
    requires session.start % MINUTE == 0 && session.end % MINUTE == 0
    ensures session.end - session.start == session.DurationMinutes() * MINUTE
  {
    var a, b := session.start / MINUTE, session.end / MINUTE;
    assert session.start == a * MINUTE && session.end == b * MINUTE;
    assert session.end - session.start == (b - a) * MINUTE;
  }

  lemma {:induction false} NoConflictIff(sessions: seq<StudySession>, start: int, end: int, gap: int)
    ensures FirstConflict(sessions, start, end, gap) == None
            <==> forall s :: s in sessions ==> Separated(s.start, s.end, start, end, gap)
  {
    if sessions != [] {
      NoConflictIff(sessions[1..], start, end, gap);
      assert sessions == [sessions[0]] + sessions[1..];
    }
  }

  lemma ClockComparison(moment: int, bound: int)
    requires moment % MINUTE == 0 && bound % MINUTE == 0
    ensures ClockMinutes(moment) < bound / MINUTE <==> TimeOfDay(moment) < bound
    ensures bound / MINUTE < ClockMinutes(moment) <==> bound < TimeOfDay(moment)
  {
    assert TimeOfDay(moment) % MINUTE == 0 by {
      assert moment == moment / MINUTE * MINUTE;
      assert DAY == 1440 * MINUTE;
      assert moment % DAY == moment - moment / DAY * DAY;
      assert TimeOfDay(moment) == (moment / MINUTE - moment / DAY * 1440) * MINUTE;
    }
  }

  /** The page's own-block rules are the server's, apart from the weekend. */
  lemma BlockRulesAgree(problem: SchedulingProblem, session: StudySession, task: AcademicTask, start: int,
                        duration: int)
    requires problem.Valid() && 0 < duration && |problem.windows| == 1
    requires problem.preferences.earliest % MINUTE == 0 && problem.preferences.latest % MINUTE == 0
    requires start % MINUTE == 0 && TaskFor(problem.tasks, session.taskId) == Some(task)
    ensures && OwnFault(start, duration, problem.busy, problem.windows[0], PagePreferences(problem.preferences),
                        Some(task.deadline))
               == None
            && (problem.preferences.weekendAvailable || Weekday(start) < 5)
            <==> BlockAllowed(problem, Moved(session, start, duration))
  {
    var m := Moved(session, start, duration);
    assert m.end % MINUTE == 0;
    ClockComparison(start, problem.preferences.earliest);
    ClockComparison(m.end, problem.preferences.latest);
    assert m.DurationMinutes() == duration;
    assert problem.windows[0] in problem.windows;
    assert Fits(problem.windows, start, m.end) <==> problem.windows[0].Contains(start, m.end);
  }

  /** The page's rules about other blocks are the server's. */
  lemma NeighbourRulesAgree(others: seq<StudySession>, m: StudySession, duration: int, minimumBreak: int, estimate: int)
    requires m.end == m.start + duration * MINUTE && 0 < estimate
    requires forall s :: s in others ==> s.start % MINUTE == 0 && s.end % MINUTE == 0
    ensures NeighbourFault(m.taskId, m.start, duration, others, minimumBreak, Some(estimate)) == None
            <==> && ClearOfAll(others, m, minimumBreak * MINUTE)
                 && MinutesFor(others, m.taskId) + duration <= estimate
  {
    TicksAreMinutes(others, m.taskId);
    NoConflictIff(others, m.start, m.end, minimumBreak * MINUTE);
  }

  lemma EstimateRulesAgree(problem: SchedulingProblem, sessions: seq<StudySession>, k: nat, task: AcademicTask,
                           start: int, duration: int)
    requires k < |sessions| && WithinEstimates(problem, sessions)
    requires TaskFor(problem.tasks, sessions[k].taskId) == Some(task)
    ensures WithinEstimates(problem, sessions[k := Moved(sessions[k], start, duration)])
            <==> MinutesFor(Rest(sessions, k), sessions[k].taskId) + duration <= task.estimatedMinutes
  {
    var m := Moved(sessions[k], start, duration);
    var moved := sessions[k := m];
    assert m.DurationMinutes() == duration;
    assert moved[k] == m && m in moved;
    ReplaceMinutes(sessions, k, m, DurationFor(m.taskId));
    forall s | s in moved && s.taskId != m.taskId
      ensures MinutesFor(moved, s.taskId) == MinutesFor(sessions, s.taskId) && s in sessions
    {
      ReplaceMinutes(sessions, k, m, DurationFor(s.taskId));
      ReplaceMinutes(sessions, k, sessions[k], DurationFor(s.taskId));
      assert sessions[k := sessions[k]] == sessions;
      var i :| 0 <= i < |moved| && moved[i] == s;
      assert sessions[i] == s;
    }
    if MinutesFor(Rest(sessions, k), m.taskId) + duration <= task.estimatedMinutes {
      forall s | s in moved && TaskFor(problem.tasks, s.taskId).Some?
        ensures MinutesFor(moved, s.taskId) <= TaskFor(problem.tasks, s.taskId).value.estimatedMinutes
      {
      }
    }
  }

  predicate ClearOfAll(others: seq<StudySession>, m: StudySession, gap: int) {
    forall s :: s in others ==> Separated(s.start, s.end, m.start, m.end, gap)
  }

  /** The server's verdict on the whole schedule comes down to the moved block. */
  lemma ServerVerdict(problem: SchedulingProblem, sessions: seq<StudySession>, k: nat, task: AcademicTask,
                      start: int, duration: int)
    requires k < |sessions| && Acceptable(problem, sessions)
    requires TaskFor(problem.tasks, sessions[k].taskId) == Some(task)
    ensures var m := Moved(sessions[k], start, duration);
            Acceptable(problem, sessions[k := m])
            <==> && BlockAllowed(problem, m)
                 && ClearOfAll(Rest(sessions, k), m, problem.preferences.BreakTicks())
                 && MinutesFor(Rest(sessions, k), m.taskId) + duration <= task.estimatedMinutes
  {
    var m, gap := Moved(sessions[k], start, duration), problem.preferences.BreakTicks();
    var moved, rest := sessions[k := m], Rest(sessions, k);
    EstimateRulesAgree(problem, sessions, k, task, start, duration);
    assert sessions[k := sessions[k]] == sessions;
    ReplacePairwise(sessions, k, sessions[k], ApartBy(gap));
    ReplacePairwise(sessions, k, m, ApartBy(gap));
    ReplacePairwise(sessions, k, sessions[k], DifferentBlocks());
    ReplacePairwise(sessions, k, m, DifferentBlocks());
    assert ClearOfAll(Rest(sessions, k), m, gap) <==> forall s :: s in rest ==> ApartBy(gap)(s, m);
    ReplaceElements(sessions, k, m);
  }

  lemma ReplaceElements(sessions: seq<StudySession>, k: nat, m: StudySession)
    requires k < |sessions|
    ensures forall s :: s in sessions[k := m] <==> s in Rest(sessions, k) || s == m
    ensures forall s :: s in Rest(sessions, k) ==> s in sessions
  {
    assert sessions[k := m] == sessions[..k] + [m] + sessions[k + 1..];
  }

  /** The page's verdict, rule by rule; it leaves out of account every block with the moved one's key. */
  lemma PageVerdict(problem: SchedulingProblem, sessions: seq<StudySession>, k: nat, task: AcademicTask,
                    start: int, duration: int)
    requires problem.Valid() && |problem.windows| == 1 && k < |sessions| && WholeMinutes(problem, sessions)
    requires TaskFor(problem.tasks, sessions[k].taskId) == Some(task) && task.Valid()
    requires 0 < duration && start % MINUTE == 0
    ensures var m, others := Moved(sessions[k], start, duration), OtherSessions(sessions, SessionKey(sessions[k]));
            && ValidateSessionPlacement(SessionKey(sessions[k]), m.taskId, start, duration, sessions, problem.busy,
                                        problem.windows[0], PagePreferences(problem.preferences),
                                        Some(task.deadline), Some(task.estimatedMinutes)) == None
            && (problem.preferences.weekendAvailable || Weekday(start) < 5)
            <==> && BlockAllowed(problem, m)
                 && ClearOfAll(others, m, problem.preferences.BreakTicks())
                 && MinutesFor(others, m.taskId) + duration <= task.estimatedMinutes
  {
    var m, others := Moved(sessions[k], start, duration), OtherSessions(sessions, SessionKey(sessions[k]));
    KeptAreThere(sessions, OtherKey(SessionKey(sessions[k])));
    BlockRulesAgree(problem, sessions[k], task, start, duration);
    NeighbourRulesAgree(others, m, duration, problem.preferences.minimumBreak, task.estimatedMinutes);
  }

  /** For an acceptable schedule with one availability window and whole minutes, the page accepts a
      move and the move avoids a forbidden weekend exactly when the server accepts the whole schedule
      with that block moved. It is only assumed that no id spells another block's task and start. */
  lemma PageAgreesWithServer(problem: SchedulingProblem, sessions: seq<StudySession>, k: nat, task: AcademicTask,
                             start: int, duration: int)
    requires problem.Valid() && |problem.windows| == 1 && k < |sessions|
    requires Acceptable(problem, sessions) && NoIdSpellsAKey(sessions, k) && WholeMinutes(problem, sessions)
    requires TaskFor(problem.tasks, sessions[k].taskId) == Some(task) && task.Valid()
    requires 0 < duration && start % MINUTE == 0
    ensures && ValidateSessionPlacement(SessionKey(sessions[k]), sessions[k].taskId, start, duration, sessions,
                                        problem.busy, problem.windows[0], PagePreferences(problem.preferences),
                                        Some(task.deadline), Some(task.estimatedMinutes)) == None
            && (problem.preferences.weekendAvailable || Weekday(start) < 5)
            <==> Acceptable(problem, sessions[k := Moved(sessions[k], start, duration)])
  {
    KeysAreOwn(problem, sessions, k);
    OthersAreTheRest(sessions, k);
    ServerVerdict(problem, sessions, k, task, start, duration);
    PageVerdict(problem, sessions, k, task, start, duration);
  }
}
