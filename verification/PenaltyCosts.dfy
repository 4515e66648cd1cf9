/** What a selection has to pay in penalties, in closed form. */
module PenaltyCosts {
  import opened Timeline
  import opened SchedulingModels
  import opened Sorting
  import opened LinearSums
  import opened Objectives
  import opened Candidates
  import opened ConstraintModel
  import opened SoftPenalties
  import opened Optimality

  // ----- What is counted

  function ChosenOn(candidates: seq<CandidateSlot>, chosen: seq<bool>, taskId: string, day: int): set<nat>
    requires |candidates| == |chosen|
  {
    set i | 0 <= i < |chosen| && chosen[i] && candidates[i].task.id == taskId && DayOf(candidates[i].start) == day
  }

  function LockedSessionsOn(locked: seq<StudySession>, taskId: string, day: int): set<nat> {
    set i | 0 <= i < |locked| && locked[i].taskId == taskId && DayOf(locked[i].start) == day
  }

  /** The sessions of one task on one day, chosen or locked. */
  function SessionsOfDay(problem: SchedulingProblem, candidates: seq<CandidateSlot>, chosen: seq<bool>,
                         taskId: string, day: int): nat
    requires |candidates| == |chosen|
  {
    |ChosenOn(candidates, chosen, taskId, day)| + |LockedSessionsOn(problem.locked, taskId, day)|
  }

  /** The minutes that a selection puts on one day. */
  function MinutesOn(candidates: seq<CandidateSlot>, chosen: seq<bool>, day: int): int
    requires |candidates| == |chosen|
  {
    if chosen == [] then 0
    else
      var last := |chosen| - 1;
      MinutesOn(candidates[..last], chosen[..last], day)
      + if chosen[last] && DayOf(candidates[last].start) == day then candidates[last].minutes else 0
  }

  /** The second session of a task on a day costs 250 points, every further one 1750. */
  function RepeatCost(sessions: int): int {
    250 * Max(0, sessions - 1) + 1500 * Max(0, sessions - 2)
  }

  function RepeatCosts(problem: SchedulingProblem, candidates: seq<CandidateSlot>, chosen: seq<bool>):
    ((string, int)) -> int
    requires |candidates| == |chosen|
  {
    ((key: (string, int)) => RepeatCost(SessionsOfDay(problem, candidates, chosen, key.0, key.1)))
  }

  /** Each minute above a day's fair share costs eight points. */
  function CrowdingCosts(candidates: seq<CandidateSlot>, chosen: seq<bool>, share: int): int -> int
    requires |candidates| == |chosen|
  {
    (day: int) => 8 * Max(0, MinutesOn(candidates, chosen, day) - share)
  }

  /** With candidates on two days or more, the fair share is the total requirement divided among
      those days, rounded down. */
  function CrowdingCost(problem: SchedulingProblem, candidates: seq<CandidateSlot>, chosen: seq<bool>): int
    requires |candidates| == |chosen|
  {
    var days, required := DaysOf(candidates), TotalRequired(problem);
    if |days| < 2 || required == 0 then 0 else SumOf(days, CrowdingCosts(candidates, chosen, required / |days|))
  }

  /** The days and the pairs of task and day that are counted are those of the candidates, each once. */
  lemma {:induction false} CountedDays(candidates: seq<CandidateSlot>)
    ensures forall day :: day in DaysOf(candidates) <==> exists c :: c in candidates && DayOf(c.start) == day
    ensures forall i, j :: 0 <= i < j < |DaysOf(candidates)| ==> DaysOf(candidates)[i] != DaysOf(candidates)[j]
  {
    if candidates != [] {
      var front, last := candidates[..|candidates| - 1], candidates[|candidates| - 1];
      assert candidates == front + [last];
      CountedDays(front);
    }
  }

  lemma {:induction false} CountedTaskDays(candidates: seq<CandidateSlot>)
    ensures forall key :: key in TaskDaysOf(candidates)
              <==> exists c :: c in candidates && c.task.id == key.0 && DayOf(c.start) == key.1
    ensures forall i, j :: 0 <= i < j < |TaskDaysOf(candidates)|
              ==> TaskDaysOf(candidates)[i] != TaskDaysOf(candidates)[j]
  {
    if candidates != [] {
      var front, last := candidates[..|candidates| - 1], candidates[|candidates| - 1];
      assert candidates == front + [last];
      CountedTaskDays(front);
    }
  }

  // ----- The sums of the model count the same things

  lemma ChosenGrows(candidates: seq<CandidateSlot>, chosen: seq<bool>, taskId: string, day: int)
    requires |candidates| == |chosen| && chosen != []
    ensures var last := |chosen| - 1;
      ChosenOn(candidates, chosen, taskId, day)
      == ChosenOn(candidates[..last], chosen[..last], taskId, day)
         + if chosen[last] && TaskDay(candidates[last]) == (taskId, day) then {last} else {}
  {
  }

  lemma {:induction false} SessionsCounted(candidates: seq<CandidateSlot>, chosen: seq<bool>, taskId: string, day: int)
    requires |candidates| == |chosen|
    ensures Dot(SessionsOn(candidates, (taskId, day)), chosen) == |ChosenOn(candidates, chosen, taskId, day)|
  {
    if chosen != [] {
      var last := |chosen| - 1;
      SessionsCounted(candidates[..last], chosen[..last], taskId, day);
      assert SessionsOn(candidates, (taskId, day))[..last] == SessionsOn(candidates[..last], (taskId, day));
      ChosenGrows(candidates, chosen, taskId, day);
    }
  }

  lemma {:induction false} LockedCounted(locked: seq<StudySession>, taskId: string, day: int)
    ensures LockedOn(locked, (taskId, day)) == |LockedSessionsOn(locked, taskId, day)|
  {
    if locked != [] {
      var last := |locked| - 1;
      LockedCounted(locked[..last], taskId, day);
      assert LockedSessionsOn(locked, taskId, day)
        == LockedSessionsOn(locked[..last], taskId, day)
           + if locked[last].taskId == taskId && DayOf(locked[last].start) == day then {last} else {};
    }
  }

  lemma {:induction false} MinutesCounted(candidates: seq<CandidateSlot>, chosen: seq<bool>, day: int)
    requires |candidates| == |chosen|
    ensures Dot(DayMinutes(candidates, day), chosen) == MinutesOn(candidates, chosen, day)
  {
    if chosen != [] {
      var last := |chosen| - 1;
      MinutesCounted(candidates[..last], chosen[..last], day);
      assert DayMinutes(candidates, day)[..last] == DayMinutes(candidates[..last], day);
    }
  }

  // ----- The least cost

  function LeastCost(limits: seq<SoftLimit>, chosen: seq<bool>): int
    requires WellSized(limits, |chosen|)
  {
    Cost(limits, LeastValues(limits, chosen))
  }

  lemma {:induction false} LeastCostConcat(a: seq<SoftLimit>, b: seq<SoftLimit>, chosen: seq<bool>)
    requires WellSized(a, |chosen|) && WellSized(b, |chosen|)
    ensures WellSized(a + b, |chosen|)
    ensures LeastCost(a + b, chosen) == LeastCost(a, chosen) + LeastCost(b, chosen)
  {
    if b == [] {
      assert a + b == a;
    } else {
      var front, last := b[..|b| - 1], b[|b| - 1];
      assert a + b == (a + front) + [last];
      LeastCostConcat(a, front, chosen);
      assert (a + b)[..|a + b| - 1] == a + front;
      assert LeastValues(a + b, chosen)[..|a + b| - 1] == LeastValues(a + front, chosen);
      assert LeastValues(b, chosen)[..|b| - 1] == LeastValues(front, chosen);
    }
  }

  lemma LeastCostOfTwo(one: SoftLimit, two: SoftLimit, chosen: seq<bool>)
    requires |one.coefficients| == |chosen| == |two.coefficients|
    ensures WellSized([one, two], |chosen|)
    ensures LeastCost([one, two], chosen) == Least(one, chosen) * one.weight + Least(two, chosen) * two.weight
  {
    var limits := [one, two];
    var values := LeastValues(limits, chosen);
    assert limits[..1] == [one] && [one][..0] == [];
    assert values[..1] == [Least(one, chosen)] && values[..1][..0] == [];
    assert Cost(limits[..1], values[..1]) == Least(one, chosen) * one.weight;
  }

  lemma RepeatsOfOne(problem: SchedulingProblem, candidates: seq<CandidateSlot>, chosen: seq<bool>, key: (string, int))
    requires |candidates| == |chosen|
    ensures var one := OverLimit(problem, candidates, key, 1, SAME_TASK_SECOND_SESSION);
      var two := OverLimit(problem, candidates, key, 2, SAME_TASK_ADDITIONAL_SESSION);
      WellSized([one, two], |chosen|)
      && LeastCost([one, two], chosen) == RepeatCosts(problem, candidates, chosen)(key)
  {
    SessionsCounted(candidates, chosen, key.0, key.1);
    LockedCounted(problem.locked, key.0, key.1);
    LeastCostOfTwo(OverLimit(problem, candidates, key, 1, SAME_TASK_SECOND_SESSION),
                   OverLimit(problem, candidates, key, 2, SAME_TASK_ADDITIONAL_SESSION), chosen);
  }

  lemma {:induction false} RepeatsAddUp(problem: SchedulingProblem, candidates: seq<CandidateSlot>, chosen: seq<bool>,
                                        keys: seq<(string, int)>)
    requires |candidates| == |chosen|
    ensures WellSized(TaskDayLimits(problem, candidates, keys), |chosen|)
    ensures LeastCost(TaskDayLimits(problem, candidates, keys), chosen)
            == SumOf(keys, RepeatCosts(problem, candidates, chosen))
  {
    TaskDayLimitsSized(problem, candidates, keys);
    if keys != [] {
      var key := keys[|keys| - 1];
      RepeatsAddUp(problem, candidates, chosen, keys[..|keys| - 1]);
      RepeatsOfOne(problem, candidates, chosen, key);
      LeastCostConcat(TaskDayLimits(problem, candidates, keys[..|keys| - 1]),
                      [OverLimit(problem, candidates, key, 1, SAME_TASK_SECOND_SESSION),
                       OverLimit(problem, candidates, key, 2, SAME_TASK_ADDITIONAL_SESSION)], chosen);
    }
  }

  lemma {:induction false} CrowdingAddsUp(problem: SchedulingProblem, candidates: seq<CandidateSlot>,
                                          chosen: seq<bool>, days: seq<int>, share: int)
    requires |candidates| == |chosen|
    ensures WellSized(DayLimits(problem, candidates, days, share), |chosen|)
    ensures LeastCost(DayLimits(problem, candidates, days, share), chosen)
            == SumOf(days, CrowdingCosts(candidates, chosen, share))
  {
    if days != [] {
      var last := |days| - 1;
      var limits := DayLimits(problem, candidates, days, share);
      CrowdingAddsUp(problem, candidates, chosen, days[..last], share);
      assert limits[..last] == DayLimits(problem, candidates, days[..last], share);
      assert LeastValues(limits, chosen)[..last] == LeastValues(limits[..last], chosen);
      MinutesCounted(candidates, chosen, days[last]);
    }
  }

  /** The least that a selection has to pay: eight points for each minute above the fair share of a
      day, and 250 for the second and 1750 for every further session of a task on a day, the locked
      ones included. A feasible selection can pay just that, and no assignment pays less. */
  lemma LeastPenalties(problem: SchedulingProblem, candidates: seq<CandidateSlot>, chosen: seq<bool>)
    requires Proper(problem, candidates) && Feasible(problem, candidates, chosen)
    ensures var limits := Penalties(problem, candidates);
      && WellSized(limits, |chosen|)
      && Solution(problem, candidates, chosen, LeastValues(limits, chosen))
      && LeastCost(limits, chosen)
         == CrowdingCost(problem, candidates, chosen)
            + SumOf(TaskDaysOf(candidates), RepeatCosts(problem, candidates, chosen))
      && forall values :: Solution(problem, candidates, chosen, values)
           ==> LeastCost(limits, chosen) <= Cost(limits, values)
  {
    var limits := Penalties(problem, candidates);
    PenaltiesNeverForbid(problem, candidates, chosen);
    PenaltiesWeighted(problem, candidates);
    PenaltiesAddUp(problem, candidates, chosen);
    forall values | Solution(problem, candidates, chosen, values)
      ensures LeastCost(limits, chosen) <= Cost(limits, values)
    {
      LeastCostsLeast(limits, chosen, values);
    }
  }

  lemma PenaltiesAddUp(problem: SchedulingProblem, candidates: seq<CandidateSlot>, chosen: seq<bool>)
    requires |candidates| == |chosen|
    ensures WellSized(Penalties(problem, candidates), |chosen|)
    ensures LeastCost(Penalties(problem, candidates), chosen)
            == CrowdingCost(problem, candidates, chosen)
               + SumOf(TaskDaysOf(candidates), RepeatCosts(problem, candidates, chosen))
  {
    var days, required := DaysOf(candidates), TotalRequired(problem);
    RepeatsAddUp(problem, candidates, chosen, TaskDaysOf(candidates));
    if 2 <= |days| && required != 0 {
      CrowdingAddsUp(problem, candidates, chosen, days, required / |days|);
    }
    LeastCostConcat(DailyBalance(problem, candidates), SameTaskDaily(problem, candidates), chosen);
  }

  /** What the tasks still need in total: for each its estimate less its locked minutes, if positive. */
  lemma {:induction false} RequiredAddsUp(problem: SchedulingProblem, tasks: seq<AcademicTask>)
    ensures RequiredOf(problem, tasks)
            == SumOf(tasks, (t: AcademicTask) => Max(0, t.estimatedMinutes - MinutesFor(problem.locked, t.id)))
  {
    if tasks != [] {
      RequiredAddsUp(problem, tasks[..|tasks| - 1]);
    }
  }
}
