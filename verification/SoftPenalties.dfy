/** The soft penalties of the scheduler's objective: bounded integer variables that are pushed up
    by the selection and cost points. */
module SoftPenalties {
  import opened Timeline
  import opened SchedulingModels
  import opened LinearSums
  import opened Objectives
  import opened Candidates
  import opened ConstraintModel

  /** A penalty variable v with 0 <= v <= upper, v >= expression + offset, costing v * weight. */
  datatype SoftLimit = SoftLimit(coefficients: seq<int>, offset: int, upper: int, weight: int)

  predicate Allows(limit: SoftLimit, chosen: seq<bool>, value: int)
    requires |limit.coefficients| == |chosen|
  {
    0 <= value <= limit.upper && Dot(limit.coefficients, chosen) + limit.offset <= value
  }

  predicate WellSized(limits: seq<SoftLimit>, n: nat) {
    forall l :: l in limits ==> |l.coefficients| == n
  }

  predicate AllowsAll(limits: seq<SoftLimit>, chosen: seq<bool>, values: seq<int>)
    requires WellSized(limits, |chosen|)
  {
    |values| == |limits| && forall k :: 0 <= k < |limits| ==> Allows(limits[k], chosen, values[k])
  }

  function Cost(limits: seq<SoftLimit>, values: seq<int>): int
    requires |limits| == |values|
  {
    if limits == [] then 0
    else
      var last := |limits| - 1;
      Cost(limits[..last], values[..last]) + values[last] * limits[last].weight
  }

  // ----- Daily balance

  function DaysOf(candidates: seq<CandidateSlot>): seq<int> {
    if candidates == [] then []
    else
      var days, day := DaysOf(candidates[..|candidates| - 1]), DayOf(candidates[|candidates| - 1].start);
      if day in days then days else days + [day]
  }

  function DayMinutes(candidates: seq<CandidateSlot>, day: int): seq<int> {
    seq(|candidates|, i requires 0 <= i < |candidates| =>
      if DayOf(candidates[i].start) == day then candidates[i].minutes else 0)
  }

  function RequiredOf(problem: SchedulingProblem, tasks: seq<AcademicTask>): int {
    if tasks == [] then 0
    else RequiredOf(problem, tasks[..|tasks| - 1]) + Requirement(problem, tasks[|tasks| - 1])
  }

  function TotalRequired(problem: SchedulingProblem): int {
    RequiredOf(problem, problem.tasks)
  }

  function DayLimit(problem: SchedulingProblem, candidates: seq<CandidateSlot>, day: int, target: int): SoftLimit {
    SoftLimit(DayMinutes(candidates, day), -target, TotalRequired(problem), DAILY_BALANCE)
  }

  function DayLimits(problem: SchedulingProblem, candidates: seq<CandidateSlot>, days: seq<int>,
                     target: int): seq<SoftLimit> {
    seq(|days|, k requires 0 <= k < |days| => DayLimit(problem, candidates, days[k], target))
  }

  function DailyBalance(problem: SchedulingProblem, candidates: seq<CandidateSlot>): seq<SoftLimit> {
    var days := DaysOf(candidates);
    if |days| < 2 || TotalRequired(problem) == 0 then []
    else DayLimits(problem, candidates, days, TotalRequired(problem) / |days|)
  }

  method DailyBalancePenalties(problem: SchedulingProblem, candidates: seq<CandidateSlot>)
    returns (penalties: seq<SoftLimit>)
    ensures penalties == DailyBalance(problem, candidates)
  {
    var days: seq<int> := [];
    for i := 0 to |candidates|
      invariant days == DaysOf(candidates[..i])
    {
      assert candidates[..i + 1][..i] == candidates[..i];
      var day := DayOf(candidates[i].start);
      if day !in days {
        days := days + [day];
      }
    }
    assert candidates[..|candidates|] == candidates;
    if |days| < 2 {
      return [];
    }
    var totalRequired := 0;
    for i := 0 to |problem.tasks|
      invariant totalRequired == RequiredOf(problem, problem.tasks[..i])
    {
      assert problem.tasks[..i + 1][..i] == problem.tasks[..i];
      totalRequired := totalRequired + Requirement(problem, problem.tasks[i]);
    }
    assert problem.tasks[..|problem.tasks|] == problem.tasks;
    if totalRequired == 0 {
      return [];
    }
    var target := totalRequired / |days|;
    penalties := [];
    for k := 0 to |days|
      invariant penalties == DayLimits(problem, candidates, days, target)[..k]
    {
      penalties := penalties + [SoftLimit(DayMinutes(candidates, days[k]), -target, totalRequired, DAILY_BALANCE)];
    }
  }

  // ----- Sessions of one task on one day

  function TaskDay(c: CandidateSlot): (string, int) {
    (c.task.id, DayOf(c.start))
  }

  function TaskDaysOf(candidates: seq<CandidateSlot>): seq<(string, int)> {
    if candidates == [] then []
    else
      var keys, key := TaskDaysOf(candidates[..|candidates| - 1]), TaskDay(candidates[|candidates| - 1]);
      if key in keys then keys else keys + [key]
  }

  function SessionsOn(candidates: seq<CandidateSlot>, key: (string, int)): seq<int> {
    seq(|candidates|, i requires 0 <= i < |candidates| => if TaskDay(candidates[i]) == key then 1 else 0)
  }

  function LockedOn(locked: seq<StudySession>, key: (string, int)): nat {
    if locked == [] then 0
    else
      var last := locked[|locked| - 1];
      LockedOn(locked[..|locked| - 1], key) + if (last.taskId, DayOf(last.start)) == key then 1 else 0
  }

  function OverLimit(problem: SchedulingProblem, candidates: seq<CandidateSlot>, key: (string, int),
                     tolerated: nat, weight: int): SoftLimit {
    var members := SessionsOn(candidates, key);
    var locked := LockedOn(problem.locked, key);
    SoftLimit(members, locked - tolerated, locked + Total(members), weight)
  }

  function TaskDayLimits(problem: SchedulingProblem, candidates: seq<CandidateSlot>,
                         keys: seq<(string, int)>): seq<SoftLimit> {
    if keys == [] then []
    else
      var key := keys[|keys| - 1];
      TaskDayLimits(problem, candidates, keys[..|keys| - 1])
      + [OverLimit(problem, candidates, key, 1, SAME_TASK_SECOND_SESSION),
         OverLimit(problem, candidates, key, 2, SAME_TASK_ADDITIONAL_SESSION)]
  }

  function SameTaskDaily(problem: SchedulingProblem, candidates: seq<CandidateSlot>): seq<SoftLimit> {
    TaskDayLimits(problem, candidates, TaskDaysOf(candidates))
  }

  method SameTaskDailyPenalties(problem: SchedulingProblem, candidates: seq<CandidateSlot>)
    returns (penalties: seq<SoftLimit>)
    ensures penalties == SameTaskDaily(problem, candidates)
  {
    var keys: seq<(string, int)> := [];
    for i := 0 to |candidates|
      invariant keys == TaskDaysOf(candidates[..i])
    {
      assert candidates[..i + 1][..i] == candidates[..i];
      var key := TaskDay(candidates[i]);
      if key !in keys {
        keys := keys + [key];
      }
    }
    assert candidates[..|candidates|] == candidates;
    penalties := [];
    for k := 0 to |keys|
      invariant penalties == TaskDayLimits(problem, candidates, keys[..k])
    {
      assert keys[..k + 1][..k] == keys[..k];
      var members := SessionsOn(candidates, keys[k]);
      var locked := LockedOn(problem.locked, keys[k]);
      var maximum := locked + Total(members);
      penalties := penalties + [SoftLimit(members, locked - 1, maximum, SAME_TASK_SECOND_SESSION),
                                SoftLimit(members, locked - 2, maximum, SAME_TASK_ADDITIONAL_SESSION)];
    }
    assert keys[..|keys|] == keys;
  }

  function Penalties(problem: SchedulingProblem, candidates: seq<CandidateSlot>): seq<SoftLimit> {
    DailyBalance(problem, candidates) + SameTaskDaily(problem, candidates)
  }

  lemma {:induction false} TaskDayLimitsSized(problem: SchedulingProblem, candidates: seq<CandidateSlot>,
                                              keys: seq<(string, int)>)
    ensures WellSized(TaskDayLimits(problem, candidates, keys), |candidates|)
  {
    if keys != [] {
      TaskDayLimitsSized(problem, candidates, keys[..|keys| - 1]);
    }
  }

  lemma PenaltiesSized(problem: SchedulingProblem, candidates: seq<CandidateSlot>)
    ensures WellSized(Penalties(problem, candidates), |candidates|)
  {
    TaskDayLimitsSized(problem, candidates, TaskDaysOf(candidates));
  }

  // ----- The penalties are soft: they never forbid a selection

  /** The least value a penalty variable can take. */
  function Least(limit: SoftLimit, chosen: seq<bool>): int
    requires |limit.coefficients| == |chosen|
  {
    Max(0, Dot(limit.coefficients, chosen) + limit.offset)
  }

  function LeastValues(limits: seq<SoftLimit>, chosen: seq<bool>): seq<int>
    requires WellSized(limits, |chosen|)
  {
    seq(|limits|, k requires 0 <= k < |limits| => Least(limits[k], chosen))
  }

  /** Each candidate belongs to a task of the problem and takes a positive time. */
  predicate Proper(problem: SchedulingProblem, candidates: seq<CandidateSlot>) {
    forall c :: c in candidates ==> c.task in problem.tasks && 0 < c.minutes
  }

  predicate HasId(tasks: seq<AcademicTask>, taskId: string) {
    exists t :: t in tasks && t.id == taskId
  }

  function CoveredMinutes(candidates: seq<CandidateSlot>, tasks: seq<AcademicTask>): seq<int> {
    seq(|candidates|,
        i requires 0 <= i < |candidates| => if HasId(tasks, candidates[i].task.id) then candidates[i].minutes else 0)
  }

  lemma {:induction false} CoveredWithinRequired(problem: SchedulingProblem, candidates: seq<CandidateSlot>,
                                                 tasks: seq<AcademicTask>, chosen: seq<bool>)
    requires Proper(problem, candidates) && |chosen| == |candidates|
    requires forall t :: t in tasks ==> Dot(TaskMinutes(candidates, t.id), chosen) <= Requirement(problem, t)
    ensures Dot(CoveredMinutes(candidates, tasks), chosen) <= RequiredOf(problem, tasks)
  {
    if tasks == [] {
      DotZero(CoveredMinutes(candidates, tasks), chosen);
    } else {
      var front, last := tasks[..|tasks| - 1], tasks[|tasks| - 1];
      assert tasks == front + [last];
      CoveredWithinRequired(problem, candidates, front, chosen);
      var a, b := CoveredMinutes(candidates, front), TaskMinutes(candidates, last.id);
      var sum := seq(|candidates|, i requires 0 <= i < |candidates| => a[i] + b[i]);
      DotAdds(a, b, sum, chosen);
      forall i | 0 <= i < |candidates|
        ensures CoveredMinutes(candidates, tasks)[i] <= sum[i]
      {
        assert candidates[i] in candidates;
        assert HasId(tasks, candidates[i].task.id)
          ==> HasId(front, candidates[i].task.id) || last.id == candidates[i].task.id;
      }
      DotMonotone(CoveredMinutes(candidates, tasks), sum, chosen);
    }
  }

  /** The minutes chosen on one day never exceed what the tasks require in total. */
  lemma DayWithinRequired(problem: SchedulingProblem, candidates: seq<CandidateSlot>, chosen: seq<bool>, day: int)
    requires Proper(problem, candidates) && Feasible(problem, candidates, chosen)
    ensures Dot(DayMinutes(candidates, day), chosen) <= TotalRequired(problem)
  {
    CoveredWithinRequired(problem, candidates, problem.tasks, chosen);
    forall i | 0 <= i < |candidates|
      ensures DayMinutes(candidates, day)[i] <= CoveredMinutes(candidates, problem.tasks)[i]
    {
      assert candidates[i] in candidates;
    }
    DotMonotone(DayMinutes(candidates, day), CoveredMinutes(candidates, problem.tasks), chosen);
  }

  lemma {:induction false} DotWithinTotal(coefficients: seq<int>, chosen: seq<bool>)
    requires |coefficients| == |chosen|
    requires forall k :: 0 <= k < |coefficients| ==> 0 <= coefficients[k]
    ensures Dot(coefficients, chosen) <= Total(coefficients)
  {
    if chosen != [] {
      DotWithinTotal(coefficients[..|chosen| - 1], chosen[..|chosen| - 1]);
    }
  }

  lemma {:induction false} RequiredNonNegative(problem: SchedulingProblem, tasks: seq<AcademicTask>)
    ensures 0 <= RequiredOf(problem, tasks)
  {
    if tasks != [] {
      RequiredNonNegative(problem, tasks[..|tasks| - 1]);
    }
  }

  lemma {:induction false} TotalNonNegative(values: seq<int>)
    requires forall k :: 0 <= k < |values| ==> 0 <= values[k]
    ensures 0 <= Total(values)
  {
    if values != [] {
      TotalNonNegative(values[..|values| - 1]);
    }
  }

  lemma OverLimitAllows(problem: SchedulingProblem, candidates: seq<CandidateSlot>, key: (string, int),
                        tolerated: nat, weight: int, chosen: seq<bool>)
    requires |chosen| == |candidates|
    ensures var limit := OverLimit(problem, candidates, key, tolerated, weight);
            Allows(limit, chosen, Least(limit, chosen))
  {
    DotWithinTotal(SessionsOn(candidates, key), chosen);
    TotalNonNegative(SessionsOn(candidates, key));
  }

  lemma {:induction false} TaskDayLimitsAllow(problem: SchedulingProblem, candidates: seq<CandidateSlot>,
                                              keys: seq<(string, int)>, chosen: seq<bool>)
    requires |chosen| == |candidates|
    ensures forall l :: l in TaskDayLimits(problem, candidates, keys)
              ==> |l.coefficients| == |chosen| && Allows(l, chosen, Least(l, chosen))
  {
    if keys != [] {
      var key := keys[|keys| - 1];
      TaskDayLimitsAllow(problem, candidates, keys[..|keys| - 1], chosen);
      OverLimitAllows(problem, candidates, key, 1, SAME_TASK_SECOND_SESSION, chosen);
      OverLimitAllows(problem, candidates, key, 2, SAME_TASK_ADDITIONAL_SESSION, chosen);
    }
  }

  lemma DayLimitAllows(problem: SchedulingProblem, candidates: seq<CandidateSlot>, chosen: seq<bool>, day: int,
                       target: int)
    requires Proper(problem, candidates) && Feasible(problem, candidates, chosen) && 0 <= target
    ensures var limit := DayLimit(problem, candidates, day, target);
            |limit.coefficients| == |chosen| && Allows(limit, chosen, Least(limit, chosen))
  {
    RequiredNonNegative(problem, problem.tasks);
    DayWithinRequired(problem, candidates, chosen, day);
  }

  lemma DailyBalanceAllows(problem: SchedulingProblem, candidates: seq<CandidateSlot>, chosen: seq<bool>, k: nat)
    requires Proper(problem, candidates) && Feasible(problem, candidates, chosen)
    requires k < |DailyBalance(problem, candidates)|
    ensures var limit := DailyBalance(problem, candidates)[k];
            |limit.coefficients| == |chosen| && Allows(limit, chosen, Least(limit, chosen))
  {
    var days, required := DaysOf(candidates), TotalRequired(problem);
    RequiredNonNegative(problem, problem.tasks);
    QuotientNonNegative(required, |days|);
    DayLimitAllows(problem, candidates, chosen, days[k], required / |days|);
  }

  lemma QuotientNonNegative(total: int, parts: int)
    requires 0 <= total && 0 < parts
    ensures 0 <= total / parts
  {
  }

  /** Every selection that meets the hard constraints extends to penalty variables inside their
      declared domains. */
  lemma PenaltiesNeverForbid(problem: SchedulingProblem, candidates: seq<CandidateSlot>, chosen: seq<bool>)
    requires Proper(problem, candidates) && Feasible(problem, candidates, chosen)
    ensures WellSized(Penalties(problem, candidates), |chosen|)
    ensures AllowsAll(Penalties(problem, candidates), chosen, LeastValues(Penalties(problem, candidates), chosen))
  {
    var daily, sameTask := DailyBalance(problem, candidates), SameTaskDaily(problem, candidates);
    var limits := daily + sameTask;
    PenaltiesSized(problem, candidates);
    TaskDayLimitsAllow(problem, candidates, TaskDaysOf(candidates), chosen);
    forall k | 0 <= k < |limits|
      ensures Allows(limits[k], chosen, Least(limits[k], chosen))
    {
      if k < |daily| {
        DailyBalanceAllows(problem, candidates, chosen, k);
      } else {
        assert limits[k] in sameTask;
      }
    }
  }

  /** Choosing nothing is always possible, so the model is never unsatisfiable. */
  lemma ModelIsSatisfiable(problem: SchedulingProblem, candidates: seq<CandidateSlot>)
    requires Proper(problem, candidates)
    ensures var nothing := Nothing(|candidates|);
            && Feasible(problem, candidates, nothing)
            && WellSized(Penalties(problem, candidates), |nothing|)
            && AllowsAll(Penalties(problem, candidates), nothing, LeastValues(Penalties(problem, candidates), nothing))
  {
    var nothing := Nothing(|candidates|);
    forall t | t in problem.tasks
      ensures Dot(TaskMinutes(candidates, t.id), nothing) <= Requirement(problem, t)
    {
      DotOfNothing(TaskMinutes(candidates, t.id), nothing);
    }
    PenaltiesNeverForbid(problem, candidates, nothing);
  }
}
