/** The scheduler itself: candidates, model, the solver's answer, decoding and accounting. */
module Scheduler {
  import opened Wrappers
  import opened Timeline
  import opened SchedulingModels
  import opened Sorting
  import opened LinearSums
  import opened FreeTime
  import opened Candidates
  import opened Coarsening
  import opened ConstraintModel
  import opened SoftPenalties
  import opened Optimality
  import opened AdjustmentChecker
  import opened SessionIds

  datatype PlanStatus = OptimalPlan | FeasiblePlan | InfeasiblePlan

  datatype SchedulingConflict = SchedulingConflict(taskId: string, scheduledMinutes: int, unscheduledMinutes: int)

  datatype SchedulingMetrics = SchedulingMetrics(
    tasksFullyScheduled: nat,
    tasksPartiallyScheduled: nat,
    unscheduledMinutes: int,
    sessionCount: nat,
    averageSessionMinutes: real)

  datatype SchedulingResult = SchedulingResult(
    status: PlanStatus,
    sessions: seq<StudySession>,
    conflicts: seq<SchedulingConflict>,
    metrics: SchedulingMetrics,
    unscheduled: map<string, int>)

  /** What the constraint solver says: nothing found, or a value for every variable (a selection and
      the penalties) and whether it is proven optimal. */
  datatype SolverAnswer = NoAnswer | Answer(proven: bool, chosen: seq<bool>, values: seq<int>)

  // ----- Decoding a selection

  function ToSession(c: CandidateSlot): StudySession {
    StudySession(Some(IdText(c.task.id, c.fragmentId, c.start)), c.task.id, c.start, c.end, false)
  }

  function ChosenSlots(candidates: seq<CandidateSlot>, chosen: seq<bool>): seq<CandidateSlot>
    requires |candidates| == |chosen|
  {
    if chosen == [] then []
    else
      var last := |chosen| - 1;
      ChosenSlots(candidates[..last], chosen[..last]) + if chosen[last] then [candidates[last]] else []
  }

  function SessionsOf(slots: seq<CandidateSlot>): seq<StudySession> {
    seq(|slots|, k requires 0 <= k < |slots| => ToSession(slots[k]))
  }

  function NewSessions(candidates: seq<CandidateSlot>, chosen: seq<bool>): seq<StudySession>
    requires |candidates| == |chosen|
  {
    Sort(SessionsOf(ChosenSlots(candidates, chosen)), StartsNoLater())
  }

  lemma SessionsAppend(slots: seq<CandidateSlot>, c: CandidateSlot)
    ensures SessionsOf(slots + [c]) == SessionsOf(slots) + [ToSession(c)]
    ensures slots + [] == slots
  {
  }

  method DecodeSelection(candidates: seq<CandidateSlot>, chosen: seq<bool>) returns (sessions: seq<StudySession>)
    requires |candidates| == |chosen|
    ensures sessions == NewSessions(candidates, chosen)
  {
    sessions := [];
    for i := 0 to |candidates|
      invariant sessions == SessionsOf(ChosenSlots(candidates[..i], chosen[..i]))
    {
      assert candidates[..i + 1][..i] == candidates[..i] && chosen[..i + 1][..i] == chosen[..i];
      SessionsAppend(ChosenSlots(candidates[..i], chosen[..i]), candidates[i]);
      if chosen[i] {
        sessions := sessions + [ToSession(candidates[i])];
      }
    }
    assert candidates[..|candidates|] == candidates && chosen[..|candidates|] == chosen;
    sessions := Sort(sessions, StartsNoLater());
  }

  // ----- Accounting

  function ScheduledMinutes(problem: SchedulingProblem, added: seq<StudySession>, taskId: string): int {
    MinutesFor(problem.locked, taskId) + MinutesFor(added, taskId)
  }

  function Remaining(problem: SchedulingProblem, added: seq<StudySession>, task: AcademicTask): int {
    Max(0, task.estimatedMinutes - ScheduledMinutes(problem, added, task.id))
  }

  function Unscheduled(problem: SchedulingProblem, added: seq<StudySession>,
                       tasks: seq<AcademicTask>): map<string, int> {
    if tasks == [] then map[]
    else
      var last := tasks[|tasks| - 1];
      Unscheduled(problem, added, tasks[..|tasks| - 1])[last.id := Remaining(problem, added, last)]
  }

  function ConflictsOf(unscheduled: map<string, int>, tasks: seq<AcademicTask>): seq<SchedulingConflict> {
    if tasks == [] then []
    else
      var last := tasks[|tasks| - 1];
      var left := MinutesOf(unscheduled, last.id);
      ConflictsOf(unscheduled, tasks[..|tasks| - 1])
      + if 0 < left then [SchedulingConflict(last.id, last.estimatedMinutes - left, left)] else []
  }

  function CountComplete(unscheduled: map<string, int>, tasks: seq<AcademicTask>): nat {
    if tasks == [] then 0
    else
      var last := tasks[|tasks| - 1];
      CountComplete(unscheduled, tasks[..|tasks| - 1]) + if MinutesOf(unscheduled, last.id) == 0 then 1 else 0
  }

  function CountPartial(unscheduled: map<string, int>, tasks: seq<AcademicTask>): nat {
    if tasks == [] then 0
    else
      var last := tasks[|tasks| - 1];
      CountPartial(unscheduled, tasks[..|tasks| - 1])
      + if 0 < MinutesOf(unscheduled, last.id) < last.estimatedMinutes then 1 else 0
  }

  function CountUntouched(unscheduled: map<string, int>, tasks: seq<AcademicTask>): nat {
    if tasks == [] then 0
    else
      var last := tasks[|tasks| - 1];
      CountUntouched(unscheduled, tasks[..|tasks| - 1])
      + if last.estimatedMinutes <= MinutesOf(unscheduled, last.id) then 1 else 0
  }

  /** The keys of the dictionary in the order they were first inserted. */
  function IdsInOrder(tasks: seq<AcademicTask>): seq<string> {
    if tasks == [] then []
    else
      var ids, id := IdsInOrder(tasks[..|tasks| - 1]), tasks[|tasks| - 1].id;
      if id in ids then ids else ids + [id]
  }

  function SumOfValues(unscheduled: map<string, int>, ids: seq<string>): int {
    if ids == [] then 0
    else SumOfValues(unscheduled, ids[..|ids| - 1]) + MinutesOf(unscheduled, ids[|ids| - 1])
  }

  function Duration(): StudySession -> int {
    (s: StudySession) => s.DurationMinutes()
  }

  function Outcome(problem: SchedulingProblem, added: seq<StudySession>, status: PlanStatus): SchedulingResult {
    var unscheduled := Unscheduled(problem, added, problem.tasks);
    var conflicts := ConflictsOf(unscheduled, problem.tasks);
    SchedulingResult(
      if conflicts != [] && added == [] then InfeasiblePlan else status,
      Sort(problem.locked + added, StartsNoLater()),
      conflicts,
      SchedulingMetrics(
        CountComplete(unscheduled, problem.tasks),
        CountPartial(unscheduled, problem.tasks),
        SumOfValues(unscheduled, IdsInOrder(problem.tasks)),
        |added| + |problem.locked|,
        if added == [] then 0.0 else SumOf(added, Duration()) as real / |added| as real),
      unscheduled)
  }

  method AddSessions(locked: map<string, int>, problem: SchedulingProblem, added: seq<StudySession>)
    returns (scheduled: map<string, int>)
    requires forall id :: MinutesOf(locked, id) == MinutesFor(problem.locked, id)
    ensures forall id :: MinutesOf(scheduled, id) == ScheduledMinutes(problem, added, id)
  {
    scheduled := locked;
    for i := 0 to |added|
      invariant forall id :: MinutesOf(scheduled, id) == ScheduledMinutes(problem, added[..i], id)
    {
      assert added[..i + 1] == added[..i] + [added[i]];
      var grown := scheduled[added[i].taskId := MinutesOf(scheduled, added[i].taskId) + added[i].DurationMinutes()];
      forall id
        ensures MinutesOf(grown, id) == ScheduledMinutes(problem, added[..i + 1], id)
      {
        MinutesAppend(added[..i], added[i], id);
        assert MinutesOf(scheduled, id) == ScheduledMinutes(problem, added[..i], id);
      }
      scheduled := grown;
    }
    assert added[..|added|] == added;
  }

  method LeftOver(problem: SchedulingProblem, added: seq<StudySession>, scheduled: map<string, int>)
    returns (unscheduled: map<string, int>)
    requires forall id :: MinutesOf(scheduled, id) == ScheduledMinutes(problem, added, id)
    ensures unscheduled == Unscheduled(problem, added, problem.tasks)
  {
    unscheduled := map[];
    for i := 0 to |problem.tasks|
      invariant unscheduled == Unscheduled(problem, added, problem.tasks[..i])
    {
      assert problem.tasks[..i + 1][..i] == problem.tasks[..i];
      var task := problem.tasks[i];
      unscheduled := unscheduled[task.id := Max(0, task.estimatedMinutes - MinutesOf(scheduled, task.id))];
    }
    assert problem.tasks[..|problem.tasks|] == problem.tasks;
  }

  lemma ReportStep(unscheduled: map<string, int>, tasks: seq<AcademicTask>, i: nat)
    requires i < |tasks|
    ensures var before, task := tasks[..i], tasks[i];
      var after, left := tasks[..i + 1], MinutesOf(unscheduled, task.id);
      && ConflictsOf(unscheduled, after)
         == ConflictsOf(unscheduled, before)
            + (if 0 < left then [SchedulingConflict(task.id, task.estimatedMinutes - left, left)] else [])
      && CountComplete(unscheduled, after) == CountComplete(unscheduled, before) + (if left == 0 then 1 else 0)
      && CountPartial(unscheduled, after)
         == CountPartial(unscheduled, before) + (if 0 < left < task.estimatedMinutes then 1 else 0)
  {
    assert tasks[..i + 1][..i] == tasks[..i];
  }

  method Report(tasks: seq<AcademicTask>, unscheduled: map<string, int>)
    returns (conflicts: seq<SchedulingConflict>, complete: nat, partial: nat)
    ensures conflicts == ConflictsOf(unscheduled, tasks)
    ensures complete == CountComplete(unscheduled, tasks) && partial == CountPartial(unscheduled, tasks)
  {
    conflicts, complete, partial := [], 0, 0;
    for i := 0 to |tasks|
      invariant conflicts == ConflictsOf(unscheduled, tasks[..i])
      invariant complete == CountComplete(unscheduled, tasks[..i])
      invariant partial == CountPartial(unscheduled, tasks[..i])
    {
      ReportStep(unscheduled, tasks, i);
      var task := tasks[i];
      var left := MinutesOf(unscheduled, task.id);
      if 0 < left {
        conflicts := conflicts + [SchedulingConflict(task.id, task.estimatedMinutes - left, left)];
      }
      if left == 0 {
        complete := complete + 1;
      }
      if 0 < left < task.estimatedMinutes {
        partial := partial + 1;
      }
    }
    assert tasks[..|tasks|] == tasks;
  }

  method BuildResult(problem: SchedulingProblem, added: seq<StudySession>, locked: map<string, int>, status: PlanStatus)
    returns (result: SchedulingResult)
    requires forall id :: MinutesOf(locked, id) == MinutesFor(problem.locked, id)
    ensures result == Outcome(problem, added, status)
  {
    var scheduled := AddSessions(locked, problem, added);
    var unscheduled := LeftOver(problem, added, scheduled);
    var conflicts, complete, partial := Report(problem.tasks, unscheduled);
    var average := if added == [] then 0.0 else SumOf(added, Duration()) as real / |added| as real;
    var metrics := SchedulingMetrics(complete, partial, SumOfValues(unscheduled, IdsInOrder(problem.tasks)),
                                     |added| + |problem.locked|, average);
    result := SchedulingResult(
      if conflicts != [] && added == [] then InfeasiblePlan else status,
      Sort(problem.locked + added, StartsNoLater()), conflicts, metrics, unscheduled);
  }

  // ----- Solving

  predicate WorkLeft(problem: SchedulingProblem) {
    exists t :: t in problem.tasks && MinutesFor(problem.locked, t.id) < t.estimatedMinutes
  }

  /** The answers a correct solver may give: a solution of the model, and a best one if it says so. */
  ghost predicate AnswersModel(problem: SchedulingProblem, answer: SolverAnswer)
    requires problem.preferences.Valid()
  {
    answer.Answer? ==>
      && Solution(problem, PostedCandidates(problem), answer.chosen, answer.values)
      && (answer.proven ==> Optimal(problem, PostedCandidates(problem), answer.chosen, answer.values))
  }

  /** What is handed to the solver: linear constraints and penalty variables over the candidates,
      and the worth of each. */
  datatype PostedModel = PostedModel(constraints: seq<Linear>, limits: seq<SoftLimit>, worth: seq<int>)

  predicate Satisfies(model: PostedModel, chosen: seq<bool>, values: seq<int>) {
    && |chosen| == |model.worth|
    && AllHold(model.constraints, chosen)
    && WellSized(model.limits, |chosen|)
    && AllowsAll(model.limits, chosen, values)
  }

  function Score(model: PostedModel, chosen: seq<bool>, values: seq<int>): int
    requires Satisfies(model, chosen, values)
  {
    Dot(model.worth, chosen) - Cost(model.limits, values)
  }

  /** What the solver owes for a posted model. */
  ghost predicate SolverMayAnswer(model: PostedModel, answer: SolverAnswer) {
    answer.Answer? ==>
      && Satisfies(model, answer.chosen, answer.values)
      && (answer.proven ==>
            forall other, values :: Satisfies(model, other, values)
              ==> Score(model, other, values) <= Score(model, answer.chosen, answer.values))
  }

  function Solved(problem: SchedulingProblem, answer: SolverAnswer): SchedulingResult
    requires problem.preferences.Valid() && (answer.Answer? ==> |answer.chosen| == |PostedCandidates(problem)|)
  {
    if PostedCandidates(problem) == [] && WorkLeft(problem) then Outcome(problem, [], InfeasiblePlan)
    else
      match answer
      case NoAnswer => Outcome(problem, [], InfeasiblePlan)
      case Answer(proven, chosen, _) =>
        Outcome(problem, NewSessions(PostedCandidates(problem), chosen), if proven then OptimalPlan else FeasiblePlan)
  }

  method PrepareCandidates(problem: SchedulingProblem, locked: map<string, int>)
    returns (candidates: seq<CandidateSlot>)
    requires problem.Valid()
    requires forall id :: MinutesOf(locked, id) == MinutesFor(problem.locked, id)
    ensures candidates == PostedCandidates(problem)
  {
    var free := ClipToStudyWindows(problem.windows, problem.preferences);
    free := SubtractBusy(free, problem.busy);
    free := SubtractLocked(free, problem.locked);
    candidates := GenerateCandidates(problem, free, locked, SLOT_MINUTES);
    if MAX_CANDIDATES < |candidates| {
      ScaleCovers(|candidates|);
      var scale := ScaleFor(|candidates|);
      candidates := GenerateCandidates(problem, free, locked, SLOT_MINUTES * scale);
    }
  }

  /** The posted model asks exactly for the solutions of the problem, at the same objective. */
  ghost predicate Models(model: PostedModel, problem: SchedulingProblem, candidates: seq<CandidateSlot>) {
    forall chosen, values ::
      && (Satisfies(model, chosen, values) <==> Solution(problem, candidates, chosen, values))
      && (Satisfies(model, chosen, values) ==>
            Score(model, chosen, values) == Objective(candidates, chosen, Penalties(problem, candidates), values))
  }

  method PostAll(problem: SchedulingProblem, candidates: seq<CandidateSlot>) returns (model: PostedModel)
    requires problem.Valid()
    ensures Models(model, problem, candidates)
  {
    var constraints := PostModel(problem, candidates);
    var balance := DailyBalancePenalties(problem, candidates);
    var daily := SameTaskDailyPenalties(problem, candidates);
    model := PostedModel(constraints, balance + daily, Worth(candidates));
    forall chosen, values
      ensures Satisfies(model, chosen, values) <==> Solution(problem, candidates, chosen, values)
    {
      assert |chosen| == |candidates| ==> (AllHold(constraints, chosen) <==> Feasible(problem, candidates, chosen));
    }
  }

  /** What a correct solver may answer to the posted model is what answers the problem. */
  lemma PostedAnswers(model: PostedModel, problem: SchedulingProblem, answer: SolverAnswer)
    requires problem.preferences.Valid() && Models(model, problem, PostedCandidates(problem))
    ensures SolverMayAnswer(model, answer) <==> AnswersModel(problem, answer)
  {
    if answer.Answer? {
      assert Satisfies(model, answer.chosen, answer.values)
        <==> Solution(problem, PostedCandidates(problem), answer.chosen, answer.values);
      if SolverMayAnswer(model, answer) && answer.proven {
        forall other, values | Solution(problem, PostedCandidates(problem), other, values)
          ensures Objective(PostedCandidates(problem), other, Penalties(problem, PostedCandidates(problem)), values)
                  <= Objective(PostedCandidates(problem), answer.chosen,
                               Penalties(problem, PostedCandidates(problem)), answer.values)
        {
          assert Satisfies(model, other, values);
        }
      }
    }
  }

  /** The whole pipeline. The solver is an oracle: it may give up, or answer the posted model; an
      answer it calls proven is a best one. */
  method Solve(problem: SchedulingProblem, answer: SolverAnswer) returns (result: SchedulingResult)
    requires problem.Valid() && AnswersModel(problem, answer)
    ensures result == Solved(problem, answer)
    ensures result.status == OptimalPlan ==>
              answer.Answer? && Optimal(problem, PostedCandidates(problem), answer.chosen, answer.values)
  {
    var locked := MinutesByTask(problem.locked);
    var candidates := PrepareCandidates(problem, locked);
    if candidates == [] && WorkLeft(problem) {
      result := BuildResult(problem, [], locked, InfeasiblePlan);
      return;
    }
    var model := PostAll(problem, candidates);
    PostedAnswers(model, problem, answer);
    assert SolverMayAnswer(model, answer);
    result := Accept(problem, candidates, locked, answer);
  }

  method Accept(problem: SchedulingProblem, candidates: seq<CandidateSlot>, locked: map<string, int>,
                answer: SolverAnswer)
    returns (result: SchedulingResult)
    requires problem.Valid() && candidates == PostedCandidates(problem) && !(candidates == [] && WorkLeft(problem))
    requires forall id :: MinutesOf(locked, id) == MinutesFor(problem.locked, id)
    requires answer.Answer? ==> |answer.chosen| == |candidates|
    ensures result == Solved(problem, answer)
    ensures result.status == OptimalPlan ==> answer.Answer? && answer.proven
  {
    match answer {
      case NoAnswer =>
        result := BuildResult(problem, [], locked, InfeasiblePlan);
      case Answer(proven, chosen, _) =>
        var sessions := DecodeSelection(candidates, chosen);
        result := BuildResult(problem, sessions, locked, if proven then OptimalPlan else FeasiblePlan);
    }
  }
}
