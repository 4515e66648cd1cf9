/** The hand-written checker of user-moved blocks, independent of the solver. */
module AdjustmentChecker {
  import opened Wrappers
  import opened Timeline
  import opened SchedulingModels
  import opened FreeTime
  import opened Sorting

  datatype Fault =
    | UnknownTask
    | DuplicateBlock
    | PastDeadline
    | TooLong
    | OutsideWindow
    | OutsideHours
    | OverlapsBusy
    | ExceedsEstimate
    | BlocksOverlap
    | BreakTooShort

  /** The dictionary of tasks by id: of several tasks with one id the last one counts. */
  function TaskFor(tasks: seq<AcademicTask>, id: string): Option<AcademicTask> {
    if tasks == [] then None
    else
      var last := tasks[|tasks| - 1];
      if last.id == id then Some(last) else TaskFor(tasks[..|tasks| - 1], id)
  }

  function StartsNoLater(): (StudySession, StudySession) -> bool {
    (a: StudySession, b: StudySession) => a.start <= b.start
  }

  function ApartBy(gap: int): (StudySession, StudySession) -> bool {
    (a: StudySession, b: StudySession) => Separated(a.start, a.end, b.start, b.end, gap)
  }

  function DifferentBlocks(): (StudySession, StudySession) -> bool {
    (a: StudySession, b: StudySession) => a.id == None || b.id == None || a.id != b.id
  }

  predicate Proper(sessions: seq<StudySession>) {
    forall s :: s in sessions ==> s.start < s.end
  }

  // ----- The hard rules, stated without any order of checking

  /** A block meets every rule that concerns it alone. */
  predicate BlockAllowed(problem: SchedulingProblem, session: StudySession) {
    var task := TaskFor(problem.tasks, session.taskId);
    && task.Some?
    && session.end <= task.value.deadline
    && session.DurationMinutes() <= problem.preferences.maximumSession
    && Fits(problem.windows, session.start, session.end)
    && InStudyHours(problem.preferences, session.start, session.end)
    && Untouched(problem.busy, session.start, session.end)
  }

  predicate WithinEstimates(problem: SchedulingProblem, sessions: seq<StudySession>) {
    forall s :: s in sessions ==>
      var task := TaskFor(problem.tasks, s.taskId);
      task.Some? ==> MinutesFor(sessions, s.taskId) <= task.value.estimatedMinutes
  }

  ghost predicate Acceptable(problem: SchedulingProblem, sessions: seq<StudySession>) {
    && (forall s :: s in sessions ==> BlockAllowed(problem, s))
    && Pairwise(sessions, DifferentBlocks())
    && WithinEstimates(problem, sessions)
    && Pairwise(sessions, ApartBy(problem.preferences.BreakTicks()))
  }

  // ----- The scan of adjacent blocks

  lemma StartOrderIsTotal()
    ensures TotalPreorder(StartsNoLater())
  {
  }

  /** Every block leaves the gap before the next one. */
  predicate GapsKept(ordered: seq<StudySession>, gap: int, count: int) {
    forall k :: 0 <= k < count && k + 1 < |ordered| ==> ordered[k].end + gap <= ordered[k + 1].start
  }

  /** In start order, leaving a gap after every block is the same as separating every pair. */
  lemma AdjacentGapsSeparateAll(ordered: seq<StudySession>, gap: int)
    requires Proper(ordered) && SortedBy(ordered, StartsNoLater()) && 0 <= gap
    ensures GapsKept(ordered, gap, |ordered|) <==> Pairwise(ordered, ApartBy(gap))
  {
    if GapsKept(ordered, gap, |ordered|) {
      forall i, j | 0 <= i < j < |ordered|
        ensures ApartBy(gap)(ordered[i], ordered[j])
      {
        assert ordered[i].end + gap <= ordered[i + 1].start;
        assert i + 1 < j ==> StartsNoLater()(ordered[i + 1], ordered[j]);
      }
    }
    if Pairwise(ordered, ApartBy(gap)) {
      forall k | 0 <= k && k + 1 < |ordered|
        ensures ordered[k].end + gap <= ordered[k + 1].start
      {
        assert ApartBy(gap)(ordered[k], ordered[k + 1]);
        assert StartsNoLater()(ordered[k], ordered[k + 1]);
        assert ordered[k] in ordered && ordered[k + 1] in ordered;
      }
    }
  }

  lemma SortedSessions(sessions: seq<StudySession>, gap: int)
    requires Proper(sessions) && 0 <= gap
    ensures var ordered := Sort(sessions, StartsNoLater());
            && |ordered| == |sessions| && Proper(ordered) && SortedBy(ordered, StartsNoLater())
            && (Pairwise(ordered, ApartBy(gap)) <==> Pairwise(sessions, ApartBy(gap)))
  {
    StartOrderIsTotal();
    SortElements(sessions, StartsNoLater());
    SortIsSorted(sessions, StartsNoLater());
    SortPairwise(sessions, StartsNoLater(), ApartBy(gap));
  }

  lemma ApartIsNoOverlap(sessions: seq<StudySession>)
    requires Proper(sessions)
    ensures Pairwise(sessions, ApartBy(0))
            <==> forall i, j :: 0 <= i < j < |sessions| ==>
                   !Overlaps(sessions[i].start, sessions[i].end, sessions[j].start, sessions[j].end)
  {
    forall i, j | 0 <= i < j < |sessions|
      ensures ApartBy(0)(sessions[i], sessions[j])
              <==> !Overlaps(sessions[i].start, sessions[i].end, sessions[j].start, sessions[j].end)
    {
      assert sessions[i] in sessions && sessions[j] in sessions;
    }
  }

  /** The scan of neighbours in start order finds an overlap exactly when some pair overlaps. */
  method ValidateNoOverlap(sessions: seq<StudySession>) returns (valid: bool)
    requires Proper(sessions)
    ensures valid <==> (forall i, j :: 0 <= i < j < |sessions| ==>
                          !Overlaps(sessions[i].start, sessions[i].end, sessions[j].start, sessions[j].end))
  {
    var ordered := Sort(sessions, StartsNoLater());
    SortedSessions(sessions, 0);
    AdjacentGapsSeparateAll(ordered, 0);
    ApartIsNoOverlap(sessions);
    valid := NeighboursApart(ordered);
  }

  method NeighboursApart(ordered: seq<StudySession>) returns (apart: bool)
    requires Proper(ordered) && SortedBy(ordered, StartsNoLater())
    ensures apart <==> GapsKept(ordered, 0, |ordered|)
  {
    var k := 0;
    while k + 1 < |ordered|
      invariant 0 <= k
      invariant GapsKept(ordered, 0, k)
    {
      assert StartsNoLater()(ordered[k], ordered[k + 1]);
      assert ordered[k] in ordered && ordered[k + 1] in ordered;
      if Overlaps(ordered[k].start, ordered[k].end, ordered[k + 1].start, ordered[k + 1].end) {
        return false;
      }
      k := k + 1;
    }
    return true;
  }

  // ----- The checker

  /** The first rule a block breaks, given the blocks before it. */
  function BlockFault(problem: SchedulingProblem, seen: set<string>, session: StudySession): Option<Fault> {
    var task := TaskFor(problem.tasks, session.taskId);
    if task == None then Some(UnknownTask)
    else if session.id.Some? && session.id.value in seen then Some(DuplicateBlock)
    else if task.value.deadline < session.end then Some(PastDeadline)
    else if problem.preferences.maximumSession < session.DurationMinutes() then Some(TooLong)
    else if !Fits(problem.windows, session.start, session.end) then Some(OutsideWindow)
    else if !InStudyHours(problem.preferences, session.start, session.end) then Some(OutsideHours)
    else if !Untouched(problem.busy, session.start, session.end) then Some(OverlapsBusy)
    else None
  }

  /** The rules of a block by their place in the check; the blocks before it have the given ids. */
  predicate Breaks(problem: SchedulingProblem, seen: set<string>, session: StudySession, fault: Fault) {
    var task := TaskFor(problem.tasks, session.taskId);
    match fault
    case UnknownTask => forall t :: t in problem.tasks ==> t.id != session.taskId
    case DuplicateBlock => session.id.Some? && session.id.value in seen
    case PastDeadline => task.Some? && task.value.deadline < session.end
    case TooLong => problem.preferences.maximumSession < session.DurationMinutes()
    case OutsideWindow => forall w :: w in problem.windows ==> session.start < w.start || w.end < session.end
    case OutsideHours =>
      || DayOf(session.start) != DayOf(session.end)
      || TimeOfDay(session.start) < problem.preferences.earliest
      || problem.preferences.latest < TimeOfDay(session.end)
      || (!problem.preferences.weekendAvailable && DayOf(session.start) % 7 in {5, 6})
    case OverlapsBusy => exists b :: b in problem.busy && session.start < b.end && b.start < session.end
    case _ => false
  }

  const BLOCK_RULES := [UnknownTask, DuplicateBlock, PastDeadline, TooLong, OutsideWindow, OutsideHours, OverlapsBusy]

  lemma {:induction false} UnknownMeansNoTask(tasks: seq<AcademicTask>, id: string)
    ensures TaskFor(tasks, id) == None <==> forall t :: t in tasks ==> t.id != id
  {
    if tasks != [] {
      var front, last := tasks[..|tasks| - 1], tasks[|tasks| - 1];
      assert tasks == front + [last];
      UnknownMeansNoTask(front, id);
    }
  }

  lemma RulesAgree(problem: SchedulingProblem, session: StudySession)
    ensures Breaks(problem, {}, session, UnknownTask) <==> TaskFor(problem.tasks, session.taskId) == None
    ensures Breaks(problem, {}, session, OutsideWindow) <==> !Fits(problem.windows, session.start, session.end)
    ensures Breaks(problem, {}, session, OutsideHours)
            <==> !InStudyHours(problem.preferences, session.start, session.end)
    ensures Breaks(problem, {}, session, OverlapsBusy) <==> !Untouched(problem.busy, session.start, session.end)
  {
    UnknownMeansNoTask(problem.tasks, session.taskId);
  }

  /** The rule is broken and none of those before it is. */
  predicate BreaksFirst(problem: SchedulingProblem, seen: set<string>, session: StudySession, k: nat)
    requires k < |BLOCK_RULES|
  {
    && Breaks(problem, seen, session, BLOCK_RULES[k])
    && forall j :: 0 <= j < k ==> !Breaks(problem, seen, session, BLOCK_RULES[j])
  }

  /** A block is told the first rule that it breaks, and nothing exactly when it breaks none. */
  lemma FirstRuleIsTold(problem: SchedulingProblem, seen: set<string>, session: StudySession)
    ensures BlockFault(problem, seen, session) == None
            <==> forall k :: 0 <= k < |BLOCK_RULES| ==> !Breaks(problem, seen, session, BLOCK_RULES[k])
    ensures forall k :: 0 <= k < |BLOCK_RULES| ==>
              (BlockFault(problem, seen, session) == Some(BLOCK_RULES[k]) <==> BreaksFirst(problem, seen, session, k))
  {
    var rules := BLOCK_RULES;
    RulesAgree(problem, session);
    assert rules[0] == UnknownTask && rules[1] == DuplicateBlock && rules[2] == PastDeadline && rules[3] == TooLong;
    assert rules[4] == OutsideWindow && rules[5] == OutsideHours && rules[6] == OverlapsBusy;
    forall k | 0 <= k < |rules|
      ensures BlockFault(problem, seen, session) == Some(rules[k]) <==> BreaksFirst(problem, seen, session, k)
    {
    }
  }

  function IdsOf(sessions: seq<StudySession>): set<string> {
    set s | s in sessions && s.id.Some? :: s.id.value
  }

  /** No block before position `i` breaks a rule of its own. */
  predicate CleanBefore(problem: SchedulingProblem, sessions: seq<StudySession>, i: nat)
    requires i <= |sessions|
  {
    forall j :: 0 <= j < i ==> BlockFault(problem, IdsOf(sessions[..j]), sessions[j]) == None
  }

  /** The first block that breaks a rule of its own breaks this one. */
  predicate FirstBlockFault(problem: SchedulingProblem, sessions: seq<StudySession>, fault: Option<Fault>) {
    exists i :: 0 <= i < |sessions|
      && CleanBefore(problem, sessions, i)
      && fault == BlockFault(problem, IdsOf(sessions[..i]), sessions[i])
  }

  lemma IdsGrow(sessions: seq<StudySession>, session: StudySession)
    ensures IdsOf(sessions + [session]) == IdsOf(sessions) + if session.id.Some? then {session.id.value} else {}
  {
    assert session in sessions + [session];
    assert forall s :: s in sessions ==> s in sessions + [session];
  }

  /** Checks blocks in the order given, stopping at the first one that breaks a rule. */
  method ScanBlocks(problem: SchedulingProblem, sessions: seq<StudySession>) returns (fault: Option<Fault>)
    ensures fault.Some? ==> FirstBlockFault(problem, sessions, fault)
    ensures fault == None ==> CleanBefore(problem, sessions, |sessions|)
  {
    var seen: set<string> := {};
    for i := 0 to |sessions|
      invariant seen == IdsOf(sessions[..i])
      invariant CleanBefore(problem, sessions, i)
    {
      var session := sessions[i];
      fault := BlockFault(problem, seen, session);
      if fault.Some? {
        return;
      }
      assert sessions[..i + 1] == sessions[..i] + [session];
      IdsGrow(sessions[..i], session);
      if session.id.Some? {
        seen := seen + {session.id.value};
      }
    }
    fault := None;
  }

  predicate Exceeds(problem: SchedulingProblem, totals: map<string, int>) {
    exists id :: id in totals && TaskFor(problem.tasks, id).Some?
                 && TaskFor(problem.tasks, id).value.estimatedMinutes < totals[id]
  }

  lemma ExceedsIff(problem: SchedulingProblem, sessions: seq<StudySession>, totals: map<string, int>)
    requires TotalsOf(sessions, totals)
    ensures Exceeds(problem, totals) <==> !WithinEstimates(problem, sessions)
  {
    if Exceeds(problem, totals) {
      var id :| id in totals && TaskFor(problem.tasks, id).Some?
                && TaskFor(problem.tasks, id).value.estimatedMinutes < totals[id];
      var s :| s in sessions && s.taskId == id;
      assert MinutesFor(sessions, s.taskId) == MinutesOf(totals, id);
    }
    if !WithinEstimates(problem, sessions) {
      var s :| s in sessions && TaskFor(problem.tasks, s.taskId).Some?
               && TaskFor(problem.tasks, s.taskId).value.estimatedMinutes < MinutesFor(sessions, s.taskId);
      assert s.taskId in totals && MinutesOf(totals, s.taskId) == MinutesFor(sessions, s.taskId);
    }
  }

  /** The first gap in start order that is too short decides: it is an overlap when it is negative. */
  predicate FirstGapFault(ordered: seq<StudySession>, gap: int, fault: Option<Fault>) {
    exists k :: 0 <= k && k + 1 < |ordered| && GapsKept(ordered, gap, k)
      && ordered[k + 1].start - ordered[k].end < gap
      && fault == Some(if ordered[k + 1].start < ordered[k].end then BlocksOverlap else BreakTooShort)
  }

  /** Blocks are checked in the order given, then the totals, then the gaps in start order. The
      answer is the first fault met, and there is none exactly when every rule is kept. */
  method ValidateSessionAdjustments(problem: SchedulingProblem, sessions: seq<StudySession>)
    returns (fault: Option<Fault>)
    requires problem.Valid() && Proper(sessions)
    ensures fault == None <==> Acceptable(problem, sessions)
    ensures fault.Some? && fault.value !in {ExceedsEstimate, BlocksOverlap, BreakTooShort}
            ==> FirstBlockFault(problem, sessions, fault)
    ensures fault == Some(ExceedsEstimate) ==> !WithinEstimates(problem, sessions)
    ensures fault in {Some(BlocksOverlap), Some(BreakTooShort)} ==> WithinEstimates(problem, sessions)
    ensures fault == Some(BlocksOverlap) ==> !Pairwise(sessions, ApartBy(0))
    ensures fault == Some(BreakTooShort) ==> !Pairwise(sessions, ApartBy(problem.preferences.BreakTicks()))
    ensures fault in {Some(ExceedsEstimate), Some(BlocksOverlap), Some(BreakTooShort)}
            ==> CleanBefore(problem, sessions, |sessions|)
    ensures fault in {Some(BlocksOverlap), Some(BreakTooShort)}
            ==> FirstGapFault(Sort(sessions, StartsNoLater()), problem.preferences.BreakTicks(), fault)
  {
    fault := ScanBlocks(problem, sessions);
    BlocksAllowedIff(problem, sessions);
    if fault.Some? {
      return;
    }
    var totals := MinutesByTask(sessions);
    ExceedsIff(problem, sessions, totals);
    if Exceeds(problem, totals) {
      fault := Some(ExceedsEstimate);
      return;
    }
    fault := GapFault(problem, sessions);
  }

  /** The scan over neighbours in start order. */
  method GapFault(problem: SchedulingProblem, sessions: seq<StudySession>) returns (fault: Option<Fault>)
    requires problem.Valid() && Proper(sessions)
    ensures fault in {None, Some(BlocksOverlap), Some(BreakTooShort)}
    ensures fault == None <==> Pairwise(sessions, ApartBy(problem.preferences.BreakTicks()))
    ensures fault == Some(BlocksOverlap) ==> !Pairwise(sessions, ApartBy(0))
    ensures fault.Some? ==> FirstGapFault(Sort(sessions, StartsNoLater()), problem.preferences.BreakTicks(), fault)
  {
    var gap := problem.preferences.BreakTicks();
    var ordered := Sort(sessions, StartsNoLater());
    SortedSessions(sessions, gap);
    SortedSessions(sessions, 0);
    AdjacentGapsSeparateAll(ordered, gap);
    AdjacentGapsSeparateAll(ordered, 0);
    fault := ScanGaps(ordered, gap);
  }

  method ScanGaps(ordered: seq<StudySession>, gap: int) returns (fault: Option<Fault>)
    requires 0 <= gap
    ensures fault in {None, Some(BlocksOverlap), Some(BreakTooShort)}
    ensures fault == None <==> GapsKept(ordered, gap, |ordered|)
    ensures fault == Some(BlocksOverlap) ==> !GapsKept(ordered, 0, |ordered|)
    ensures fault.Some? ==> FirstGapFault(ordered, gap, fault)
  {
    var k := 0;
    while k + 1 < |ordered|
      invariant 0 <= k
      invariant GapsKept(ordered, gap, k)
    {
      var between := ordered[k + 1].start - ordered[k].end;
      if between < 0 {
        return Some(BlocksOverlap);
      }
      if between < gap {
        return Some(BreakTooShort);
      }
      k := k + 1;
    }
    fault := None;
  }

  lemma BlocksAllowedIff(problem: SchedulingProblem, sessions: seq<StudySession>)
    ensures CleanBefore(problem, sessions, |sessions|)
            <==> (forall s :: s in sessions ==> BlockAllowed(problem, s)) && Pairwise(sessions, DifferentBlocks())
  {
    if CleanBefore(problem, sessions, |sessions|) {
      forall i, j | 0 <= i < j < |sessions|
        ensures DifferentBlocks()(sessions[i], sessions[j])
      {
        assert sessions[..j][i] == sessions[i];
        assert sessions[i] in sessions[..j];
      }
    }
    if (forall s :: s in sessions ==> BlockAllowed(problem, s)) && Pairwise(sessions, DifferentBlocks()) {
      forall j | 0 <= j < |sessions|
        ensures BlockFault(problem, IdsOf(sessions[..j]), sessions[j]) == None
      {
        forall s | s in sessions[..j] && s.id.Some?
          ensures s.id != sessions[j].id
        {
          var i :| 0 <= i < j && sessions[i] == s;
          assert DifferentBlocks()(sessions[i], sessions[j]);
        }
        assert sessions[j] in sessions;
      }
    }
  }
}
