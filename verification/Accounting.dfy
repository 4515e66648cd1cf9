/** The scheduler's bookkeeping: totals, remainders, conflicts, counts and status. */
module Accounting {
  import opened Timeline
  import opened SchedulingModels
  import opened Sorting
  import opened Candidates
  import opened Coarsening
  import opened ConstraintModel
  import opened AdjustmentChecker
  import opened SessionIds
  import opened Wrappers
  import opened Scheduler
  import opened SchedulerTheorems

  /** Whatever the solver answers, no task is given more than its estimate or its locked minutes. */
  lemma TotalsStayWithinEstimate(problem: SchedulingProblem, chosen: seq<bool>, task: AcademicTask)
    requires problem.Valid() && task in problem.tasks && Feasible(problem, PostedCandidates(problem), chosen)
    ensures ScheduledMinutes(problem, NewSessions(PostedCandidates(problem), chosen), task.id)
            <= Max(task.estimatedMinutes, MinutesFor(problem.locked, task.id))
  {
    NewMinutes(problem, chosen, task);
  }

  lemma {:induction false} UnscheduledLookup(problem: SchedulingProblem, added: seq<StudySession>,
                                             tasks: seq<AcademicTask>, task: AcademicTask)
    requires forall i, j :: 0 <= i < j < |tasks| ==> tasks[i].id != tasks[j].id
    requires task in tasks
    ensures task.id in Unscheduled(problem, added, tasks)
    ensures Unscheduled(problem, added, tasks)[task.id] == Remaining(problem, added, task)
  {
    var front, last := tasks[..|tasks| - 1], tasks[|tasks| - 1];
    assert tasks == front + [last];
    if task != last {
      var i :| 0 <= i < |tasks| && tasks[i] == task;
      assert tasks[i].id != tasks[|tasks| - 1].id;
      UnscheduledLookup(problem, added, front, task);
    }
  }

  /** The scheduled minutes, capped at the estimate, and the unscheduled minutes make up the
      estimate. */
  lemma ScheduledPlusUnscheduled(problem: SchedulingProblem, added: seq<StudySession>, status: PlanStatus,
                                 task: AcademicTask)
    requires problem.DistinctTaskIds() && task in problem.tasks
    ensures var result := Outcome(problem, added, status);
            && task.id in result.unscheduled
            && Min(ScheduledMinutes(problem, added, task.id), task.estimatedMinutes) + result.unscheduled[task.id]
               == task.estimatedMinutes
  {
    UnscheduledLookup(problem, added, problem.tasks, task);
  }

  lemma {:induction false} ConflictElements(unscheduled: map<string, int>, tasks: seq<AcademicTask>,
                                            conflict: SchedulingConflict)
    ensures conflict in ConflictsOf(unscheduled, tasks)
            <==> exists t :: t in tasks && 0 < MinutesOf(unscheduled, t.id)
                   && conflict == SchedulingConflict(t.id, t.estimatedMinutes - MinutesOf(unscheduled, t.id),
                                                     MinutesOf(unscheduled, t.id))
  {
    if tasks != [] {
      var front, last := tasks[..|tasks| - 1], tasks[|tasks| - 1];
      assert tasks == front + [last];
      ConflictElements(unscheduled, front, conflict);
    }
  }

  /** Conflicts name exactly the tasks with work left, each with the minutes that are missing. */
  lemma ConflictsAreExact(problem: SchedulingProblem, added: seq<StudySession>, status: PlanStatus,
                          conflict: SchedulingConflict)
    requires problem.DistinctTaskIds()
    ensures conflict in Outcome(problem, added, status).conflicts
            <==> exists t :: t in problem.tasks && 0 < Remaining(problem, added, t)
                   && conflict == SchedulingConflict(t.id, t.estimatedMinutes - Remaining(problem, added, t),
                                                     Remaining(problem, added, t))
  {
    var unscheduled := Unscheduled(problem, added, problem.tasks);
    ConflictElements(unscheduled, problem.tasks, conflict);
    forall t | t in problem.tasks
      ensures MinutesOf(unscheduled, t.id) == Remaining(problem, added, t)
    {
      UnscheduledLookup(problem, added, problem.tasks, t);
    }
  }

  lemma {:induction false} CountsPartition(unscheduled: map<string, int>, tasks: seq<AcademicTask>)
    requires forall t :: t in tasks ==> t.Valid()
    requires forall id :: id in unscheduled ==> 0 <= unscheduled[id]
    ensures CountComplete(unscheduled, tasks) + CountPartial(unscheduled, tasks) + CountUntouched(unscheduled, tasks)
            == |tasks|
  {
    if tasks != [] {
      var last := tasks[|tasks| - 1];
      assert last in tasks;
      CountsPartition(unscheduled, tasks[..|tasks| - 1]);
    }
  }

  lemma {:induction false} UnscheduledNonNegative(problem: SchedulingProblem, added: seq<StudySession>,
                                                  tasks: seq<AcademicTask>)
    ensures forall id :: id in Unscheduled(problem, added, tasks) ==> 0 <= Unscheduled(problem, added, tasks)[id]
  {
    if tasks != [] {
      UnscheduledNonNegative(problem, added, tasks[..|tasks| - 1]);
    }
  }

  /** Every task is counted once: fully scheduled, partially scheduled or untouched. */
  lemma CountsAddUp(problem: SchedulingProblem, added: seq<StudySession>, status: PlanStatus)
    requires problem.Valid()
    ensures var result := Outcome(problem, added, status);
            result.metrics.tasksFullyScheduled + result.metrics.tasksPartiallyScheduled
            + CountUntouched(result.unscheduled, problem.tasks) == |problem.tasks|
  {
    UnscheduledNonNegative(problem, added, problem.tasks);
    CountsPartition(Unscheduled(problem, added, problem.tasks), problem.tasks);
  }

  function RemainingOf(problem: SchedulingProblem, added: seq<StudySession>, tasks: seq<AcademicTask>): int {
    if tasks == [] then 0
    else RemainingOf(problem, added, tasks[..|tasks| - 1]) + Remaining(problem, added, tasks[|tasks| - 1])
  }

  lemma {:induction false} IdsOfDistinctTasks(tasks: seq<AcademicTask>)
    requires forall i, j :: 0 <= i < j < |tasks| ==> tasks[i].id != tasks[j].id
    ensures IdsInOrder(tasks) == seq(|tasks|, i requires 0 <= i < |tasks| => tasks[i].id)
  {
    if tasks != [] {
      IdsOfDistinctTasks(tasks[..|tasks| - 1]);
    }
  }

  lemma {:induction false} SumsAgree(problem: SchedulingProblem, added: seq<StudySession>, tasks: seq<AcademicTask>)
    requires problem.DistinctTaskIds() && tasks <= problem.tasks
    ensures SumOfValues(Unscheduled(problem, added, problem.tasks), IdsInOrder(tasks))
            == RemainingOf(problem, added, tasks)
  {
    IdsOfDistinctTasks(tasks);
    if tasks != [] {
      var front, last := tasks[..|tasks| - 1], tasks[|tasks| - 1];
      SumsAgree(problem, added, front);
      IdsOfDistinctTasks(front);
      assert IdsInOrder(tasks)[..|tasks| - 1] == IdsInOrder(front);
      assert last in problem.tasks by {
        assert problem.tasks[|tasks| - 1] == last;
      }
      UnscheduledLookup(problem, added, problem.tasks, last);
    }
  }

  /** The reported total is the sum of the remainders of all tasks. */
  lemma UnscheduledTotal(problem: SchedulingProblem, added: seq<StudySession>, status: PlanStatus)
    requires problem.DistinctTaskIds()
    ensures Outcome(problem, added, status).metrics.unscheduledMinutes == RemainingOf(problem, added, problem.tasks)
  {
    SumsAgree(problem, added, problem.tasks);
  }

  /** A plan is reported infeasible exactly when the solver found nothing, or when nothing new was
      placed although some task has work left - locked sessions do not count. */
  lemma InfeasibleIff(problem: SchedulingProblem, added: seq<StudySession>, status: PlanStatus)
    requires problem.DistinctTaskIds()
    ensures Outcome(problem, added, status).status == InfeasiblePlan
            <==> || status == InfeasiblePlan
                 || (added == [] && exists t :: t in problem.tasks && 0 < Remaining(problem, added, t))
  {
    var conflicts := Outcome(problem, added, status).conflicts;
    if conflicts != [] {
      ConflictsAreExact(problem, added, status, conflicts[0]);
    }
    if t :| t in problem.tasks && 0 < Remaining(problem, added, t) {
      ConflictsAreExact(problem, added, status,
        SchedulingConflict(t.id, t.estimatedMinutes - Remaining(problem, added, t), Remaining(problem, added, t)));
    }
  }

  lemma SortKeepsLocked(problem: SchedulingProblem, added: seq<StudySession>, status: PlanStatus)
    ensures forall s :: s in problem.locked ==> s in Outcome(problem, added, status).sessions
    ensures multiset(Outcome(problem, added, status).sessions) == multiset(problem.locked) + multiset(added)
    ensures Outcome(problem, added, status).metrics.sessionCount == |Outcome(problem, added, status).sessions|
  {
    SortElements(problem.locked + added, StartsNoLater());
  }

  // ----- What is counted

  /** The places below count with the property. */
  function Where(count: nat, holds: nat -> bool): set<nat> {
    set i | 0 <= i < count && holds(i)
  }

  lemma WhereGrows(count: nat, holds: nat -> bool)
    ensures |Where(count + 1, holds)| == |Where(count, holds)| + if holds(count) then 1 else 0
  {
    assert Where(count + 1, holds) == Where(count, holds) + if holds(count) then {count} else {};
  }

  /** The work left of the task at a place of the problem. */
  function LeftAt(problem: SchedulingProblem, added: seq<StudySession>, i: nat): int {
    if i < |problem.tasks| then Remaining(problem, added, problem.tasks[i]) else 0
  }

  function EstimateAt(problem: SchedulingProblem, i: nat): int {
    if i < |problem.tasks| then problem.tasks[i].estimatedMinutes else 0
  }

  function Done(problem: SchedulingProblem, added: seq<StudySession>): nat -> bool {
    (i: nat) => LeftAt(problem, added, i) == 0
  }

  function Begun(problem: SchedulingProblem, added: seq<StudySession>): nat -> bool {
    (i: nat) => 0 < LeftAt(problem, added, i) < EstimateAt(problem, i)
  }

  function Open(problem: SchedulingProblem, added: seq<StudySession>): nat -> bool {
    (i: nat) => 0 < LeftAt(problem, added, i)
  }

  lemma CountStep(unscheduled: map<string, int>, tasks: seq<AcademicTask>)
    requires tasks != []
    ensures var front, last := tasks[..|tasks| - 1], tasks[|tasks| - 1];
      var left := MinutesOf(unscheduled, last.id);
      && CountComplete(unscheduled, tasks) == CountComplete(unscheduled, front) + (if left == 0 then 1 else 0)
      && CountPartial(unscheduled, tasks)
         == CountPartial(unscheduled, front) + (if 0 < left < last.estimatedMinutes then 1 else 0)
      && |ConflictsOf(unscheduled, tasks)| == |ConflictsOf(unscheduled, front)| + (if 0 < left then 1 else 0)
  {
  }

  lemma {:induction false} CountsAreSizes(problem: SchedulingProblem, added: seq<StudySession>, count: nat)
    requires problem.DistinctTaskIds() && count <= |problem.tasks|
    ensures var unscheduled, tasks := Unscheduled(problem, added, problem.tasks), problem.tasks[..count];
      && CountComplete(unscheduled, tasks) == |Where(count, Done(problem, added))|
      && CountPartial(unscheduled, tasks) == |Where(count, Begun(problem, added))|
      && |ConflictsOf(unscheduled, tasks)| == |Where(count, Open(problem, added))|
  {
    if count == 0 {
      assert forall holds :: Where(0, holds) == {};
    } else {
      var last := count - 1;
      CountsAreSizes(problem, added, last);
      UnscheduledLookup(problem, added, problem.tasks, problem.tasks[last]);
      CountStep(Unscheduled(problem, added, problem.tasks), problem.tasks[..count]);
      assert problem.tasks[..count][..last] == problem.tasks[..last];
      WhereGrows(last, Done(problem, added));
      WhereGrows(last, Begun(problem, added));
      WhereGrows(last, Open(problem, added));
    }
  }

  /** The counts of a result: the tasks without work left, those with some but not all of their work
      left, and one conflict for each task with work left. */
  lemma MetricsCount(problem: SchedulingProblem, added: seq<StudySession>, status: PlanStatus)
    requires problem.DistinctTaskIds()
    ensures var result, n := Outcome(problem, added, status), |problem.tasks|;
      && result.metrics.tasksFullyScheduled == |Where(n, Done(problem, added))|
      && result.metrics.tasksPartiallyScheduled == |Where(n, Begun(problem, added))|
      && |result.conflicts| == |Where(n, Open(problem, added))|
  {
    CountsAreSizes(problem, added, |problem.tasks|);
    assert problem.tasks[..|problem.tasks|] == problem.tasks;
  }

  predicate IsMean(average: real, total: int, count: nat) {
    if count == 0 then average == 0.0 else average * count as real == total as real
  }

  lemma QuotientIsMean(total: int, count: nat)
    requires count != 0
    ensures IsMean(total as real / count as real, total, count)
  {
  }

  /** The reported average is the mean length of the new sessions. */
  lemma AverageIsMean(problem: SchedulingProblem, added: seq<StudySession>, status: PlanStatus)
    ensures IsMean(Outcome(problem, added, status).metrics.averageSessionMinutes, SumOf(added, Duration()), |added|)
  {
    if added != [] {
      QuotientIsMean(SumOf(added, Duration()), |added|);
    }
  }

  // ----- From choices to sessions

  /** The session that a chosen candidate becomes. */
  predicate SessionOf(c: CandidateSlot, s: StudySession) {
    s == StudySession(Some(IdText(c.task.id, c.fragmentId, c.start)), c.task.id, c.start, c.end, false)
  }

  lemma ChoicesGrow(chosen: seq<bool>)
    requires chosen != []
    ensures var last := |chosen| - 1;
      Choices(chosen) == Choices(chosen[..last]) + if chosen[last] then {last} else {}
  {
  }

  function Choices(chosen: seq<bool>): set<nat> {
    set i | 0 <= i < |chosen| && chosen[i]
  }

  lemma {:induction false} AsManySlots(candidates: seq<CandidateSlot>, chosen: seq<bool>)
    requires |candidates| == |chosen|
    ensures |ChosenSlots(candidates, chosen)| == |Choices(chosen)|
  {
    if chosen != [] {
      var last := |chosen| - 1;
      AsManySlots(candidates[..last], chosen[..last]);
      ChoicesGrow(chosen);
    }
  }

  /** Decoding gives one session for each choice and no other, in the order of their starts. */
  lemma ChoicesBecomeSessions(candidates: seq<CandidateSlot>, chosen: seq<bool>)
    requires |candidates| == |chosen|
    ensures var sessions := NewSessions(candidates, chosen);
      && |sessions| == |Choices(chosen)|
      && (forall s :: s in sessions <==> exists i :: i in Choices(chosen) && SessionOf(candidates[i], s))
      && SortedBy(sessions, StartsNoLater())
  {
    var slots := ChosenSlots(candidates, chosen);
    AsManySlots(candidates, chosen);
    StartOrderIsTotal();
    SortElements(SessionsOf(slots), StartsNoLater());
    SortIsSorted(SessionsOf(slots), StartsNoLater());
    forall s
      ensures s in SessionsOf(slots) <==> exists i :: i in Choices(chosen) && SessionOf(candidates[i], s)
    {
      DecodedOne(candidates, chosen, s);
    }
  }

  lemma {:induction false} DecodedOne(candidates: seq<CandidateSlot>, chosen: seq<bool>, s: StudySession)
    requires |candidates| == |chosen|
    ensures s in SessionsOf(ChosenSlots(candidates, chosen))
            <==> exists i :: i in Choices(chosen) && SessionOf(candidates[i], s)
  {
    if chosen != [] {
      var last := |chosen| - 1;
      DecodedOne(candidates[..last], chosen[..last], s);
      SessionsAppend(ChosenSlots(candidates[..last], chosen[..last]), candidates[last]);
      ChoicesGrow(chosen);
      assert forall i :: i in Choices(chosen[..last]) ==> candidates[..last][i] == candidates[i];
    }
  }

  /** The status of a plan: infeasible when the solver found nothing, or chose nothing although some
      task has work left, and otherwise optimal exactly when the solver proved it. */
  lemma StatusOfPlan(problem: SchedulingProblem, answer: SolverAnswer)
    requires problem.preferences.Valid() && problem.DistinctTaskIds()
    requires answer.Answer? ==> |answer.chosen| == |PostedCandidates(problem)|
    ensures var status := Solved(problem, answer).status;
      var nothing := answer.NoAnswer? || (Choices(answer.chosen) == {} && WorkLeft(problem));
      status == if nothing then InfeasiblePlan else if answer.proven then OptimalPlan else FeasiblePlan
  {
    if answer.Answer? {
      ChoicesBecomeSessions(PostedCandidates(problem), answer.chosen);
      StatusOf(problem, NewSessions(PostedCandidates(problem), answer.chosen),
               if answer.proven then OptimalPlan else FeasiblePlan);
    }
  }

  lemma StatusOf(problem: SchedulingProblem, added: seq<StudySession>, status: PlanStatus)
    requires problem.DistinctTaskIds()
    ensures Outcome(problem, added, status).status
            == if |added| == 0 && WorkLeft(problem) then InfeasiblePlan else status
  {
    WorkLeftRemains(problem);
    InfeasibleIff(problem, added, status);
  }

  lemma WorkLeftRemains(problem: SchedulingProblem)
    ensures WorkLeft(problem) <==> exists t :: t in problem.tasks && 0 < Remaining(problem, [], t)
  {
    forall t | t in problem.tasks
      ensures 0 < Remaining(problem, [], t) <==> MinutesFor(problem.locked, t.id) < t.estimatedMinutes
    {
      assert MinutesFor([], t.id) == 0;
    }
  }
}
