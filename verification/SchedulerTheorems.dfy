/** What the whole pipeline guarantees: its schedules pass the independent checker, and its
    accounting is exact. */
module SchedulerTheorems {
  import opened Wrappers
  import opened Timeline
  import opened SchedulingModels
  import opened Sorting
  import opened LinearSums
  import opened FreeTime
  import opened Candidates
  import opened Coarsening
  import opened ConstraintModel
  import opened SoftPenalties
  import opened Optimality
  import opened Placement
  import opened AdjustmentChecker
  import opened SessionIds
  import opened Scheduler

  // ----- The chosen slots

  lemma {:induction false} ChosenPairwise(candidates: seq<CandidateSlot>, chosen: seq<bool>,
                                          related: (CandidateSlot, CandidateSlot) -> bool)
    requires |candidates| == |chosen|
    requires forall i, j :: 0 <= i < j < |chosen| && chosen[i] && chosen[j] ==> related(candidates[i], candidates[j])
    ensures Pairwise(ChosenSlots(candidates, chosen), related)
    ensures forall c :: c in ChosenSlots(candidates, chosen)
              ==> exists i :: 0 <= i < |chosen| && chosen[i] && candidates[i] == c
  {
    if chosen != [] {
      var last := |chosen| - 1;
      ChosenPairwise(candidates[..last], chosen[..last], related);
      var front := ChosenSlots(candidates[..last], chosen[..last]);
      forall c | c in front
        ensures exists i :: 0 <= i < last && chosen[i] && candidates[i] == c
      {
        var i :| 0 <= i < |chosen[..last]| && chosen[..last][i] && candidates[..last][i] == c;
        assert chosen[i] && candidates[i] == c;
      }
      if chosen[last] {
        AppendPairwise(front, candidates[last], related);
      }
    }
  }

  lemma SlotDuration(c: CandidateSlot)
    requires c.end == c.start + c.minutes * MINUTE
    ensures ToSession(c).DurationMinutes() == c.minutes
  {
  }

  lemma MinutesAppendSlot(slots: seq<CandidateSlot>, c: CandidateSlot, taskId: string)
    requires c.end == c.start + c.minutes * MINUTE
    ensures MinutesFor(SessionsOf(slots + [c]), taskId)
            == MinutesFor(SessionsOf(slots), taskId) + if c.task.id == taskId then c.minutes else 0
  {
    SlotDuration(c);
    SessionsAppend(slots, c);
    MinutesAppend(SessionsOf(slots), ToSession(c), taskId);
  }

  lemma {:induction false} ChosenMinutes(candidates: seq<CandidateSlot>, chosen: seq<bool>, taskId: string)
    requires |candidates| == |chosen|
    requires forall c :: c in candidates ==> c.end == c.start + c.minutes * MINUTE
    ensures MinutesFor(SessionsOf(ChosenSlots(candidates, chosen)), taskId)
            == Dot(TaskMinutes(candidates, taskId), chosen)
  {
    if chosen != [] {
      var last := |chosen| - 1;
      var front := ChosenSlots(candidates[..last], chosen[..last]);
      ChosenMinutes(candidates[..last], chosen[..last], taskId);
      assert TaskMinutes(candidates, taskId)[..last] == TaskMinutes(candidates[..last], taskId);
      if chosen[last] {
        assert candidates[last] in candidates;
        MinutesAppendSlot(front, candidates[last], taskId);
      } else {
        assert ChosenSlots(candidates, chosen) == front;
      }
    }
  }

  lemma PostedCandidateFacts(problem: SchedulingProblem, c: CandidateSlot)
    requires problem.Valid() && c in PostedCandidates(problem)
    ensures c.end == c.start + c.minutes * MINUTE && c.task in problem.tasks
    ensures UsablePieces(problem)
            ==> 0 < c.minutes <= problem.preferences.maximumSession && MayPlace(problem, c.task, c.start, c.end)
  {
    var scale := Scale(|FineCandidates(problem)|);
    ScaleCovers(|FineCandidates(problem)|);
    CandidateElements(problem, FreeWindows(problem), SLOT_MINUTES * scale, c);
    if UsablePieces(problem) {
      CandidateMinutes(problem, FreeWindows(problem), SLOT_MINUTES * scale, c);
      CandidatesAreSound(problem, scale, c);
    }
  }

  // ----- The decoded schedule against the checker

  lemma {:induction false} TaskForMember(tasks: seq<AcademicTask>, task: AcademicTask)
    requires forall i, j :: 0 <= i < j < |tasks| ==> tasks[i].id != tasks[j].id
    requires task in tasks
    ensures TaskFor(tasks, task.id) == Some(task)
  {
    var front, last := tasks[..|tasks| - 1], tasks[|tasks| - 1];
    assert tasks == front + [last];
    if last != task {
      var i :| 0 <= i < |tasks| && tasks[i] == task;
      assert tasks[i].id != tasks[|tasks| - 1].id;
      TaskForMember(front, task);
    }
  }

  lemma {:induction false} TaskForFound(tasks: seq<AcademicTask>, id: string)
    ensures TaskFor(tasks, id).Some? ==> TaskFor(tasks, id).value in tasks && TaskFor(tasks, id).value.id == id
  {
    if tasks != [] && tasks[|tasks| - 1].id != id {
      TaskForFound(tasks[..|tasks| - 1], id);
    }
  }

  lemma AcceptableSorted(problem: SchedulingProblem, sessions: seq<StudySession>)
    ensures Acceptable(problem, Sort(sessions, StartsNoLater())) <==> Acceptable(problem, sessions)
  {
    var sorted := Sort(sessions, StartsNoLater());
    SortElements(sessions, StartsNoLater());
    SortPairwise(sessions, StartsNoLater(), DifferentBlocks());
    SortPairwise(sessions, StartsNoLater(), ApartBy(problem.preferences.BreakTicks()));
    forall id
      ensures MinutesFor(sorted, id) == MinutesFor(sessions, id)
    {
      SortSum(sessions, StartsNoLater(), DurationFor(id));
    }
  }

  lemma SlotSessionAllowed(problem: SchedulingProblem, c: CandidateSlot)
    requires problem.Valid() && problem.DistinctTaskIds() && UsablePieces(problem)
    requires c in PostedCandidates(problem)
    ensures BlockAllowed(problem, ToSession(c))
    ensures ToSession(c).start < ToSession(c).end
    ensures Untouched(LockedTime(problem.locked), c.start, c.end)
  {
    PostedCandidateFacts(problem, c);
    TaskForMember(problem.tasks, c.task);
    SlotDuration(c);
  }

  function Raw(problem: SchedulingProblem, chosen: seq<bool>): seq<StudySession>
    requires problem.preferences.Valid() && |chosen| == |PostedCandidates(problem)|
  {
    SessionsOf(ChosenSlots(PostedCandidates(problem), chosen))
  }

  function SlotsApart(gap: int): (CandidateSlot, CandidateSlot) -> bool {
    (a: CandidateSlot, b: CandidateSlot) => !TooClose(a, b, gap) && !SameFragment(a, b)
  }

  lemma SlotsGiveSeparateSessions(a: CandidateSlot, b: CandidateSlot, gap: int)
    requires a.start < a.end && b.start < b.end && 0 <= gap && SlotsApart(gap)(a, b)
    ensures DifferentBlocks()(ToSession(a), ToSession(b)) && ApartBy(gap)(ToSession(a), ToSession(b))
  {
    BreaksMeanSeparation(a, b, gap);
    if IdText(a.task.id, a.fragmentId, a.start) == IdText(b.task.id, b.fragmentId, b.start) {
      IdNamesOnePiece(a.task.id, a.fragmentId, a.start, b.task.id, b.fragmentId, b.start);
    }
  }

  lemma NewSessionsApart(slots: seq<CandidateSlot>, gap: int)
    requires Pairwise(slots, SlotsApart(gap)) && 0 <= gap
    requires forall c :: c in slots ==> c.start < c.end
    ensures Pairwise(SessionsOf(slots), DifferentBlocks()) && Pairwise(SessionsOf(slots), ApartBy(gap))
  {
    forall i, j | 0 <= i < j < |slots|
      ensures DifferentBlocks()(SessionsOf(slots)[i], SessionsOf(slots)[j])
      ensures ApartBy(gap)(SessionsOf(slots)[i], SessionsOf(slots)[j])
    {
      assert slots[i] in slots && slots[j] in slots;
      SlotsGiveSeparateSessions(slots[i], slots[j], gap);
    }
  }

  lemma NewSessionsValid(problem: SchedulingProblem, slots: seq<CandidateSlot>)
    requires problem.Valid() && problem.DistinctTaskIds() && UsablePieces(problem)
    requires forall c :: c in slots ==> c in PostedCandidates(problem)
    ensures forall c :: c in slots ==> c.start < c.end
    ensures forall s :: s in SessionsOf(slots) ==> BlockAllowed(problem, s) && s.start < s.end && !s.locked
    ensures forall s :: s in SessionsOf(slots) ==> Untouched(LockedTime(problem.locked), s.start, s.end)
  {
    forall c | c in slots
      ensures c.start < c.end
    {
      SlotSessionAllowed(problem, c);
    }
    forall s | s in SessionsOf(slots)
      ensures BlockAllowed(problem, s) && s.start < s.end && !s.locked
              && Untouched(LockedTime(problem.locked), s.start, s.end)
    {
      var k :| 0 <= k < |slots| && SessionsOf(slots)[k] == s;
      SlotSessionAllowed(problem, slots[k]);
    }
  }

  /** New sessions are allowed one by one, have different ids and keep the break. */
  lemma NewSessionsAllowed(problem: SchedulingProblem, chosen: seq<bool>)
    requires problem.Valid() && problem.DistinctTaskIds() && UsablePieces(problem)
    requires Feasible(problem, PostedCandidates(problem), chosen)
    ensures forall s :: s in Raw(problem, chosen) ==> BlockAllowed(problem, s) && s.start < s.end && !s.locked
    ensures forall s :: s in Raw(problem, chosen) ==> Untouched(LockedTime(problem.locked), s.start, s.end)
    ensures Pairwise(Raw(problem, chosen), DifferentBlocks())
    ensures Pairwise(Raw(problem, chosen), ApartBy(problem.preferences.BreakTicks()))
  {
    var candidates, gap := PostedCandidates(problem), problem.preferences.BreakTicks();
    var slots := ChosenSlots(candidates, chosen);
    ChosenPairwise(candidates, chosen, SlotsApart(gap));
    NewSessionsValid(problem, slots);
    NewSessionsApart(slots, gap);
  }

  lemma NewMinutes(problem: SchedulingProblem, chosen: seq<bool>, task: AcademicTask)
    requires problem.Valid() && task in problem.tasks && Feasible(problem, PostedCandidates(problem), chosen)
    ensures MinutesFor(Raw(problem, chosen), task.id) <= Requirement(problem, task)
    ensures MinutesFor(NewSessions(PostedCandidates(problem), chosen), task.id)
            == MinutesFor(Raw(problem, chosen), task.id)
  {
    var candidates := PostedCandidates(problem);
    forall c | c in candidates
      ensures c.end == c.start + c.minutes * MINUTE
    {
      PostedCandidateFacts(problem, c);
    }
    ChosenMinutes(candidates, chosen, task.id);
    SortSum(Raw(problem, chosen), StartsNoLater(), DurationFor(task.id));
  }

  lemma PairwiseConcat<T(!new)>(a: seq<T>, b: seq<T>, related: (T, T) -> bool)
    ensures Pairwise(a + b, related)
            <==> Pairwise(a, related) && Pairwise(b, related) && forall x, y :: x in a && y in b ==> related(x, y)
  {
    var all := a + b;
    if Pairwise(all, related) {
      forall i, j | 0 <= i < j < |b|
        ensures related(b[i], b[j])
      {
        assert related(all[|a| + i], all[|a| + j]);
      }
      forall i, j | 0 <= i < j < |a|
        ensures related(a[i], a[j])
      {
        assert related(all[i], all[j]);
      }
      forall x, y | x in a && y in b
        ensures related(x, y)
      {
        var i :| 0 <= i < |a| && a[i] == x;
        var j :| 0 <= j < |b| && b[j] == y;
        assert related(all[i], all[|a| + j]);
      }
    }
  }

  lemma {:induction false} NoSessionNoMinutes(sessions: seq<StudySession>, id: string)
    requires forall s :: s in sessions ==> s.taskId != id
    ensures MinutesFor(sessions, id) == 0
  {
    if sessions != [] {
      var front, last := sessions[..|sessions| - 1], sessions[|sessions| - 1];
      NoSessionNoMinutes(front, id);
      assert last in sessions;
      MinutesAppend(front, last, id);
      assert sessions == front + [last];
    }
  }

  lemma LockedMinutesWithinEstimate(problem: SchedulingProblem, task: AcademicTask)
    requires problem.Valid() && problem.DistinctTaskIds() && task in problem.tasks
    requires WithinEstimates(problem, problem.locked)
    ensures MinutesFor(problem.locked, task.id) <= task.estimatedMinutes
  {
    TaskForMember(problem.tasks, task);
    if s :| s in problem.locked && s.taskId == task.id {
      assert MinutesFor(problem.locked, s.taskId) <= TaskFor(problem.tasks, s.taskId).value.estimatedMinutes;
    } else {
      NoSessionNoMinutes(problem.locked, task.id);
    }
  }

  lemma TogetherWithinEstimates(problem: SchedulingProblem, chosen: seq<bool>)
    requires problem.Valid() && problem.DistinctTaskIds()
    requires WithinEstimates(problem, problem.locked)
    requires Feasible(problem, PostedCandidates(problem), chosen)
    ensures WithinEstimates(problem, problem.locked + Raw(problem, chosen))
  {
    var all := problem.locked + Raw(problem, chosen);
    forall s | s in all && TaskFor(problem.tasks, s.taskId).Some?
      ensures MinutesFor(all, s.taskId) <= TaskFor(problem.tasks, s.taskId).value.estimatedMinutes
    {
      TaskForFound(problem.tasks, s.taskId);
      var task := TaskFor(problem.tasks, s.taskId).value;
      NewMinutes(problem, chosen, task);
      LockedMinutesWithinEstimate(problem, task);
      SumConcat(problem.locked, Raw(problem, chosen), DurationFor(task.id));
    }
  }

  /** No locked session is closer to a new one than the break, and none carries a new one's id. */
  ghost predicate ClearOfLocked(problem: SchedulingProblem, chosen: seq<bool>)
    requires problem.preferences.Valid() && |chosen| == |PostedCandidates(problem)|
  {
    forall l, s :: l in problem.locked && s in Raw(problem, chosen)
      ==> ApartBy(problem.preferences.BreakTicks())(l, s) && DifferentBlocks()(l, s)
  }

  /** With locked sessions that are acceptable on their own, the schedule is accepted exactly when
      the new sessions keep the break from the locked ones and reuse none of their ids. */
  lemma LockedScheduleAcceptedIff(problem: SchedulingProblem, answer: SolverAnswer)
    requires problem.Valid() && problem.DistinctTaskIds() && UsablePieces(problem)
    requires Acceptable(problem, problem.locked)
    requires answer.Answer? && Feasible(problem, PostedCandidates(problem), answer.chosen)
    requires !(PostedCandidates(problem) == [] && WorkLeft(problem))
    ensures Acceptable(problem, Solved(problem, answer).sessions) <==> ClearOfLocked(problem, answer.chosen)
  {
    var chosen := answer.chosen;
    var raw, gap := Raw(problem, chosen), problem.preferences.BreakTicks();
    var all := problem.locked + raw;
    NewSessionsAllowed(problem, chosen);
    TogetherWithinEstimates(problem, chosen);
    PairwiseConcat(problem.locked, raw, DifferentBlocks());
    PairwiseConcat(problem.locked, raw, ApartBy(gap));
    AcceptableSorted(problem, all);
    ResultSessions(problem, answer);
  }

  lemma ResultSessions(problem: SchedulingProblem, answer: SolverAnswer)
    requires problem.Valid() && answer.Answer? && Feasible(problem, PostedCandidates(problem), answer.chosen)
    requires !(PostedCandidates(problem) == [] && WorkLeft(problem))
    ensures Acceptable(problem, Solved(problem, answer).sessions)
            <==> Acceptable(problem, problem.locked + Raw(problem, answer.chosen))
  {
    var chosen := answer.chosen;
    var raw, sorted := Raw(problem, chosen), NewSessions(PostedCandidates(problem), chosen);
    SortElements(raw, StartsNoLater());
    AcceptableSorted(problem, problem.locked + sorted);
    AcceptableSorted(problem, problem.locked + raw);
    AcceptableTail(problem, problem.locked, raw);
  }

  lemma TailPairwise<T(!new)>(head: seq<T>, tail: seq<T>, le: (T, T) -> bool, related: (T, T) -> bool)
    requires forall a, b :: related(a, b) ==> related(b, a)
    ensures Pairwise(head + Sort(tail, le), related) <==> Pairwise(head + tail, related)
  {
    SortElements(tail, le);
    SortPairwise(tail, le, related);
    PairwiseConcat(head, tail, related);
    PairwiseConcat(head, Sort(tail, le), related);
  }

  lemma TailMinutes(head: seq<StudySession>, tail: seq<StudySession>, id: string)
    ensures MinutesFor(head + Sort(tail, StartsNoLater()), id) == MinutesFor(head + tail, id)
  {
    SortSum(tail, StartsNoLater(), DurationFor(id));
    SumConcat(head, tail, DurationFor(id));
    SumConcat(head, Sort(tail, StartsNoLater()), DurationFor(id));
  }

  lemma AcceptableTail(problem: SchedulingProblem, head: seq<StudySession>, tail: seq<StudySession>)
    ensures Acceptable(problem, head + Sort(tail, StartsNoLater())) <==> Acceptable(problem, head + tail)
  {
    SortElements(tail, StartsNoLater());
    TailPairwise(head, tail, StartsNoLater(), DifferentBlocks());
    TailPairwise(head, tail, StartsNoLater(), ApartBy(problem.preferences.BreakTicks()));
    forall id
      ensures MinutesFor(head + Sort(tail, StartsNoLater()), id) == MinutesFor(head + tail, id)
    {
      TailMinutes(head, tail, id);
    }
  }

  // ----- What can be said before the call

  /** Whatever a correct solver answers, the schedule is accepted. */
  ghost predicate AlwaysAccepted(problem: SchedulingProblem)
    requires problem.preferences.Valid()
  {
    forall answer :: AnswersModel(problem, answer) ==> Acceptable(problem, Solved(problem, answer).sessions)
  }

  /** The candidate keeps the break from the locked session and its session would have another id. */
  predicate ClearOf(problem: SchedulingProblem, locked: StudySession, c: CandidateSlot) {
    && Separated(locked.start, locked.end, c.start, c.end, problem.preferences.BreakTicks())
    && OtherId(locked, c)
  }

  /** No candidate is too close to a locked session. */
  predicate CandidatesClear(problem: SchedulingProblem)
    requires problem.preferences.Valid()
  {
    forall l, c :: l in problem.locked && c in PostedCandidates(problem) ==> ClearOf(problem, l, c)
  }

  lemma {:induction false} ChosenIsListed(candidates: seq<CandidateSlot>, chosen: seq<bool>, i: nat)
    requires |candidates| == |chosen| && i < |chosen| && chosen[i]
    ensures candidates[i] in ChosenSlots(candidates, chosen)
  {
    var last := |chosen| - 1;
    if i < last {
      ChosenIsListed(candidates[..last], chosen[..last], i);
    }
  }

  lemma ChosenIsNew(problem: SchedulingProblem, chosen: seq<bool>, i: nat)
    requires problem.preferences.Valid() && |chosen| == |PostedCandidates(problem)| && i < |chosen| && chosen[i]
    ensures ToSession(PostedCandidates(problem)[i]) in Raw(problem, chosen)
  {
    var slots := ChosenSlots(PostedCandidates(problem), chosen);
    ChosenIsListed(PostedCandidates(problem), chosen, i);
    var k :| 0 <= k < |slots| && slots[k] == PostedCandidates(problem)[i];
    assert SessionsOf(slots)[k] == ToSession(slots[k]);
  }

  lemma NewIsChosen(problem: SchedulingProblem, chosen: seq<bool>, s: StudySession)
    requires problem.preferences.Valid() && |chosen| == |PostedCandidates(problem)| && s in Raw(problem, chosen)
    ensures exists c :: c in PostedCandidates(problem) && ToSession(c) == s
  {
    var candidates := PostedCandidates(problem);
    var slots := ChosenSlots(candidates, chosen);
    ChosenPairwise(candidates, chosen, (a: CandidateSlot, b: CandidateSlot) => true);
    var k :| 0 <= k < |slots| && SessionsOf(slots)[k] == s;
    assert slots[k] in slots;
    var i :| 0 <= i < |chosen| && chosen[i] && candidates[i] == slots[k];
    assert candidates[i] in candidates;
  }

  lemma ClearCandidatesGiveClear(problem: SchedulingProblem, chosen: seq<bool>)
    requires problem.preferences.Valid() && |chosen| == |PostedCandidates(problem)| && CandidatesClear(problem)
    ensures ClearOfLocked(problem, chosen)
  {
    forall l, s | l in problem.locked && s in Raw(problem, chosen)
      ensures ApartBy(problem.preferences.BreakTicks())(l, s) && DifferentBlocks()(l, s)
    {
      NewIsChosen(problem, chosen, s);
      var c :| c in PostedCandidates(problem) && ToSession(c) == s;
      assert ClearOf(problem, l, c);
    }
  }

  lemma NothingNewIsFine(problem: SchedulingProblem, answer: SolverAnswer)
    requires problem.preferences.Valid() && Acceptable(problem, problem.locked)
    requires answer.Answer? ==> |answer.chosen| == |PostedCandidates(problem)|
    requires answer.NoAnswer? || (PostedCandidates(problem) == [] && WorkLeft(problem))
    ensures Acceptable(problem, Solved(problem, answer).sessions)
  {
    assert problem.locked + [] == problem.locked;
    AcceptableSorted(problem, problem.locked);
  }

  lemma ClearCandidatesSuffice(problem: SchedulingProblem, answer: SolverAnswer)
    requires problem.Valid() && problem.DistinctTaskIds() && UsablePieces(problem)
    requires Acceptable(problem, problem.locked) && CandidatesClear(problem) && AnswersModel(problem, answer)
    ensures Acceptable(problem, Solved(problem, answer).sessions)
  {
    if answer.Answer? && !(PostedCandidates(problem) == [] && WorkLeft(problem)) {
      ClearCandidatesGiveClear(problem, answer.chosen);
      LockedScheduleAcceptedIff(problem, answer);
    } else {
      NothingNewIsFine(problem, answer);
    }
  }

  lemma CloseCandidateIsRefused(problem: SchedulingProblem, locked: StudySession, k: nat)
    requires problem.Valid() && problem.DistinctTaskIds() && UsablePieces(problem)
    requires Acceptable(problem, problem.locked) && locked in problem.locked && k < |PostedCandidates(problem)|
    requires !ClearOf(problem, locked, PostedCandidates(problem)[k])
    ensures !AlwaysAccepted(problem)
  {
    var candidates := PostedCandidates(problem);
    var chosen := OnlyAt(|candidates|, k);
    var s := ToSession(candidates[k]);
    AnyCandidateAlone(problem, k);
    PostedCandidatesProper(problem);
    PenaltiesNeverForbid(problem, candidates, chosen);
    var answer := Answer(false, chosen, LeastValues(Penalties(problem, candidates), chosen));
    assert AnswersModel(problem, answer);
    ChosenIsNew(problem, chosen, k);
    assert !(ApartBy(problem.preferences.BreakTicks())(locked, s) && DifferentBlocks()(locked, s));
    LockedScheduleAcceptedIff(problem, answer);
  }

  /** With an acceptable locked part, every schedule the call can return is accepted exactly when no
      candidate comes within the break of a locked session or would take its id. Both are known
      before the solver is asked. */
  lemma LockedBreaksKeptIff(problem: SchedulingProblem)
    requires problem.Valid() && problem.DistinctTaskIds() && UsablePieces(problem)
    requires Acceptable(problem, problem.locked)
    ensures AlwaysAccepted(problem) <==> CandidatesClear(problem)
  {
    if CandidatesClear(problem) {
      forall answer | AnswersModel(problem, answer)
        ensures Acceptable(problem, Solved(problem, answer).sessions)
      {
        ClearCandidatesSuffice(problem, answer);
      }
    }
    if l, c :| l in problem.locked && c in PostedCandidates(problem) && !ClearOf(problem, l, c) {
      var k :| 0 <= k < |PostedCandidates(problem)| && PostedCandidates(problem)[k] == c;
      CloseCandidateIsRefused(problem, l, k);
    }
  }

  /** End to end: with no locked sessions every answer of the solver, coarsened or not, decodes to
      a schedule the independent checker accepts. */
  lemma EverySolutionIsAccepted(problem: SchedulingProblem, answer: SolverAnswer)
    requires problem.Valid() && problem.DistinctTaskIds() && UsablePieces(problem)
    requires problem.locked == [] && AnswersModel(problem, answer)
    ensures Acceptable(problem, Solved(problem, answer).sessions)
  {
    assert Acceptable(problem, []);
    ClearCandidatesSuffice(problem, answer);
  }

  lemma CandidateOffLocked(problem: SchedulingProblem, locked: StudySession, c: CandidateSlot)
    requires problem.Valid() && problem.DistinctTaskIds() && UsablePieces(problem)
    requires locked in problem.locked && c in PostedCandidates(problem)
    ensures Separated(locked.start, locked.end, c.start, c.end, 0)
  {
    SlotSessionAllowed(problem, c);
    var i :| 0 <= i < |problem.locked| && problem.locked[i] == locked;
    assert LockedTime(problem.locked)[i] in LockedTime(problem.locked);
  }

  predicate OtherId(locked: StudySession, c: CandidateSlot) {
    locked.id != Some(IdText(c.task.id, c.fragmentId, c.start))
  }

  predicate NoIdTaken(problem: SchedulingProblem)
    requires problem.preferences.Valid()
  {
    forall l, c :: l in problem.locked && c in PostedCandidates(problem) ==> OtherId(l, c)
  }

  lemma ClearWithoutBreak(problem: SchedulingProblem, locked: StudySession, c: CandidateSlot)
    requires problem.Valid() && problem.DistinctTaskIds() && UsablePieces(problem)
    requires problem.preferences.minimumBreak == 0
    requires locked in problem.locked && c in PostedCandidates(problem)
    ensures ClearOf(problem, locked, c) <==> OtherId(locked, c)
  {
    CandidateOffLocked(problem, locked, c);
  }

  /** Without a required break, every candidate is far enough from every locked session, so only a
      reused id can have a schedule refused. */
  lemma NoBreakNeedsNoMore(problem: SchedulingProblem)
    requires problem.Valid() && problem.DistinctTaskIds() && UsablePieces(problem)
    requires problem.preferences.minimumBreak == 0
    ensures CandidatesClear(problem) <==> NoIdTaken(problem)
  {
    if CandidatesClear(problem) {
      forall l, c | l in problem.locked && c in PostedCandidates(problem)
        ensures OtherId(l, c)
      {
        assert ClearOf(problem, l, c);
      }
    }
    if NoIdTaken(problem) {
      forall l, c | l in problem.locked && c in PostedCandidates(problem)
        ensures ClearOf(problem, l, c)
      {
        ClearWithoutBreak(problem, l, c);
      }
    }
  }
}
