/** The objective, and why an optimal selection leaves no room for another session. */
module Optimality {
  import opened Timeline
  import opened SchedulingModels
  import opened LinearSums
  import opened Objectives
  import opened Candidates
  import opened ConstraintModel
  import opened SoftPenalties
  import opened FreeTime
  import opened Coarsening

  function Worth(candidates: seq<CandidateSlot>): seq<int> {
    seq(|candidates|, i requires 0 <= i < |candidates| =>
      candidates[i].minutes * UNSCHEDULED_MINUTE + candidates[i].score)
  }

  /** The objective the solver maximizes: the worth of the selection less the cost of the penalties. */
  function Objective(candidates: seq<CandidateSlot>, chosen: seq<bool>, limits: seq<SoftLimit>, values: seq<int>): int
    requires |candidates| == |chosen| && |limits| == |values|
  {
    Dot(Worth(candidates), chosen) - Cost(limits, values)
  }

  /** A complete assignment of the model: a selection and a value for every penalty variable. */
  predicate Solution(problem: SchedulingProblem, candidates: seq<CandidateSlot>, chosen: seq<bool>, values: seq<int>) {
    && Feasible(problem, candidates, chosen)
    && WellSized(Penalties(problem, candidates), |chosen|)
    && AllowsAll(Penalties(problem, candidates), chosen, values)
  }

  ghost predicate Optimal(problem: SchedulingProblem, candidates: seq<CandidateSlot>, chosen: seq<bool>,
                          values: seq<int>) {
    && Solution(problem, candidates, chosen, values)
    && forall other, otherValues :: Solution(problem, candidates, other, otherValues)
         ==> Objective(candidates, other, Penalties(problem, candidates), otherValues)
             <= Objective(candidates, chosen, Penalties(problem, candidates), values)
  }

  predicate Weighted(limits: seq<SoftLimit>) {
    forall l :: l in limits ==> 0 <= l.weight && forall c :: c in l.coefficients ==> 0 <= c
  }

  lemma {:induction false} LeastCostsLeast(limits: seq<SoftLimit>, chosen: seq<bool>, values: seq<int>)
    requires WellSized(limits, |chosen|) && Weighted(limits) && AllowsAll(limits, chosen, values)
    ensures Cost(limits, LeastValues(limits, chosen)) <= Cost(limits, values)
  {
    if limits != [] {
      var last := |limits| - 1;
      LeastCostsLeast(limits[..last], chosen, values[..last]);
      assert LeastValues(limits, chosen)[..last] == LeastValues(limits[..last], chosen);
      var least, weight := Least(limits[last], chosen), limits[last].weight;
      assert limits[last] in limits;
      Scaled(least, values[last], weight);
    }
  }

  lemma Scaled(a: int, b: int, weight: int)
    requires a <= b && 0 <= weight
    ensures a * weight <= b * weight
  {
  }

  /** What one more choice of candidate k can add to the cost of every penalty. */
  function Exposure(limits: seq<SoftLimit>, k: nat): int
    requires forall l :: l in limits ==> k < |l.coefficients|
  {
    if limits == [] then 0
    else
      var last := limits[|limits| - 1];
      Exposure(limits[..|limits| - 1], k) + last.coefficients[k] * last.weight
  }

  lemma {:induction false} CostGrowsByExposure(limits: seq<SoftLimit>, chosen: seq<bool>, k: nat)
    requires WellSized(limits, |chosen|) && Weighted(limits) && k < |chosen| && !chosen[k]
    ensures Cost(limits, LeastValues(limits, chosen[k := true]))
            <= Cost(limits, LeastValues(limits, chosen)) + Exposure(limits, k)
  {
    if limits != [] {
      var last := |limits| - 1;
      var limit := limits[last];
      assert limit in limits && limit.coefficients[k] in limit.coefficients;
      CostGrowsByExposure(limits[..last], chosen, k);
      assert LeastValues(limits, chosen)[..last] == LeastValues(limits[..last], chosen);
      assert LeastValues(limits, chosen[k := true])[..last] == LeastValues(limits[..last], chosen[k := true]);
      DotChoose(limit.coefficients, chosen, k);
      Scaled(Least(limit, chosen[k := true]), Least(limit, chosen) + limit.coefficients[k], limit.weight);
      assert (Least(limit, chosen) + limit.coefficients[k]) * limit.weight
          == Least(limit, chosen) * limit.weight + limit.coefficients[k] * limit.weight;
    }
  }

  lemma {:induction false} ExposureConcat(a: seq<SoftLimit>, b: seq<SoftLimit>, k: nat)
    requires forall l :: l in a + b ==> k < |l.coefficients|
    ensures (forall l :: l in a ==> k < |l.coefficients|) && (forall l :: l in b ==> k < |l.coefficients|)
    ensures Exposure(a + b, k) == Exposure(a, k) + Exposure(b, k)
  {
    assert forall l :: l in a ==> l in a + b;
    assert forall l :: l in b ==> l in a + b;
    if b == [] {
      assert a + b == a;
    } else {
      var front, last := b[..|b| - 1], b[|b| - 1];
      assert a + b == (a + front) + [last];
      ExposureConcat(a, front, k);
      assert (a + b)[..|a + b| - 1] == a + front;
    }
  }

  // ----- A candidate lies on one day and in one task-day group

  lemma {:induction false} DaysDistinct(candidates: seq<CandidateSlot>)
    ensures forall i, j :: 0 <= i < j < |DaysOf(candidates)| ==> DaysOf(candidates)[i] != DaysOf(candidates)[j]
  {
    if candidates != [] {
      DaysDistinct(candidates[..|candidates| - 1]);
    }
  }

  lemma {:induction false} TaskDaysDistinct(candidates: seq<CandidateSlot>)
    ensures forall i, j :: 0 <= i < j < |TaskDaysOf(candidates)|
             ==> TaskDaysOf(candidates)[i] != TaskDaysOf(candidates)[j]
  {
    if candidates != [] {
      TaskDaysDistinct(candidates[..|candidates| - 1]);
    }
  }

  lemma {:induction false} DayExposure(problem: SchedulingProblem, candidates: seq<CandidateSlot>, days: seq<int>,
                                       target: int, k: nat)
    requires k < |candidates| && 0 < candidates[k].minutes
    requires forall i, j :: 0 <= i < j < |days| ==> days[i] != days[j]
    ensures Exposure(DayLimits(problem, candidates, days, target), k)
            == if DayOf(candidates[k].start) in days then candidates[k].minutes * DAILY_BALANCE else 0
  {
    if days != [] {
      var last := |days| - 1;
      DayExposure(problem, candidates, days[..last], target, k);
      assert DayLimits(problem, candidates, days, target)[..last]
        == DayLimits(problem, candidates, days[..last], target);
      assert days == days[..last] + [days[last]];
    }
  }

  lemma {:induction false} TaskDayExposure(problem: SchedulingProblem, candidates: seq<CandidateSlot>,
                                           keys: seq<(string, int)>, k: nat)
    requires k < |candidates|
    requires forall i, j :: 0 <= i < j < |keys| ==> keys[i] != keys[j]
    ensures WellSized(TaskDayLimits(problem, candidates, keys), |candidates|)
    ensures Exposure(TaskDayLimits(problem, candidates, keys), k)
            == if TaskDay(candidates[k]) in keys then SAME_TASK_SECOND_SESSION + SAME_TASK_ADDITIONAL_SESSION else 0
  {
    TaskDayLimitsSized(problem, candidates, keys);
    if keys != [] {
      var front, key := keys[..|keys| - 1], keys[|keys| - 1];
      assert keys == front + [key];
      TaskDayExposure(problem, candidates, front, k);
      var one := OverLimit(problem, candidates, key, 1, SAME_TASK_SECOND_SESSION);
      var two := OverLimit(problem, candidates, key, 2, SAME_TASK_ADDITIONAL_SESSION);
      var limits := TaskDayLimits(problem, candidates, front);
      assert TaskDayLimits(problem, candidates, keys) == (limits + [one]) + [two];
      assert ((limits + [one]) + [two])[..|limits| + 1] == limits + [one];
      assert (limits + [one])[..|limits|] == limits;
    }
  }

  /** One more session costs at most 8 points a minute and 1750 points besides. */
  lemma PenaltyCap(problem: SchedulingProblem, candidates: seq<CandidateSlot>, k: nat)
    requires k < |candidates| && 0 < candidates[k].minutes
    ensures WellSized(Penalties(problem, candidates), |candidates|)
    ensures Exposure(Penalties(problem, candidates), k) <= DAILY_BALANCE * candidates[k].minutes + 1750
  {
    PenaltiesSized(problem, candidates);
    var days := DaysOf(candidates);
    DaysDistinct(candidates);
    TaskDaysDistinct(candidates);
    TaskDayExposure(problem, candidates, TaskDaysOf(candidates), k);
    ExposureConcat(DailyBalance(problem, candidates), SameTaskDaily(problem, candidates), k);
    if 2 <= |days| && TotalRequired(problem) != 0 {
      DayExposure(problem, candidates, days, TotalRequired(problem) / |days|, k);
    }
  }

  lemma {:induction false} TaskDayLimitsWeighted(problem: SchedulingProblem, candidates: seq<CandidateSlot>,
                                                 keys: seq<(string, int)>)
    ensures Weighted(TaskDayLimits(problem, candidates, keys))
  {
    if keys != [] {
      TaskDayLimitsWeighted(problem, candidates, keys[..|keys| - 1]);
    }
  }

  lemma PenaltiesWeighted(problem: SchedulingProblem, candidates: seq<CandidateSlot>)
    requires Proper(problem, candidates)
    ensures Weighted(Penalties(problem, candidates))
  {
    TaskDayLimitsWeighted(problem, candidates, TaskDaysOf(candidates));
    forall l | l in DailyBalance(problem, candidates)
      ensures 0 <= l.weight && forall c :: c in l.coefficients ==> 0 <= c
    {
      forall c | c in l.coefficients
        ensures 0 <= c
      {
        var i :| 0 <= i < |candidates| && l.coefficients[i] == c;
        assert candidates[i] in candidates;
      }
    }
  }

  /** The candidate is worth more than the penalties it can cause: at least five minutes long and
      starting less than 48,600 minutes after now. */
  predicate WorthTaking(problem: SchedulingProblem, c: CandidateSlot) {
    && 5 <= c.minutes
    && problem.now <= c.start < problem.now + 48_600 * MINUTE
    && c.task.Valid()
    && c.score == SlotScore(c.task, c.start, c.minutes, problem.preferences, problem.now)
  }

  lemma WorthExceedsPenalties(problem: SchedulingProblem, c: CandidateSlot)
    requires WorthTaking(problem, c)
    ensures DAILY_BALANCE * c.minutes + 1750 < c.minutes * UNSCHEDULED_MINUTE + c.score
  {
    ScoreAtLeast(c.task, c.start, c.minutes, problem.preferences, problem.now);
    var elapsed := (c.start - problem.now) / MINUTE;
    assert elapsed < 48_600;
    assert elapsed / SLOT_MINUTES <= 3239;
  }

  /** Adding a worthwhile candidate that still fits strictly raises the best objective the
      selection can reach. */
  lemma AddingImproves(problem: SchedulingProblem, candidates: seq<CandidateSlot>, chosen: seq<bool>, values: seq<int>,
                       k: nat)
    requires Proper(problem, candidates) && Solution(problem, candidates, chosen, values)
    requires k < |candidates| && !chosen[k] && WorthTaking(problem, candidates[k])
    requires Feasible(problem, candidates, chosen[k := true])
    ensures var limits := Penalties(problem, candidates);
            var better := LeastValues(limits, chosen[k := true]);
            && Solution(problem, candidates, chosen[k := true], better)
            && Objective(candidates, chosen, limits, values) < Objective(candidates, chosen[k := true], limits, better)
  {
    var limits := Penalties(problem, candidates);
    PenaltiesWeighted(problem, candidates);
    PenaltiesNeverForbid(problem, candidates, chosen[k := true]);
    LeastCostsLeast(limits, chosen, values);
    CostGrowsByExposure(limits, chosen, k);
    PenaltyCap(problem, candidates, k);
    WorthExceedsPenalties(problem, candidates[k]);
    DotChoose(Worth(candidates), chosen, k);
  }

  /** An optimal selection is inclusion-maximal: no worthwhile candidate can still be added. */
  lemma OptimalIsMaximal(problem: SchedulingProblem, candidates: seq<CandidateSlot>, chosen: seq<bool>,
                         values: seq<int>, k: nat)
    requires Proper(problem, candidates) && Optimal(problem, candidates, chosen, values)
    requires k < |candidates| && !chosen[k] && WorthTaking(problem, candidates[k])
    ensures !Feasible(problem, candidates, chosen[k := true])
  {
    if Feasible(problem, candidates, chosen[k := true]) {
      AddingImproves(problem, candidates, chosen, values, k);
    }
  }

  /** The candidates the scheduler posts meet the assumptions above, whatever the grid. */
  lemma PostedCandidatesProper(problem: SchedulingProblem)
    requires problem.Valid() && UsablePieces(problem)
    ensures Proper(problem, PostedCandidates(problem))
    ensures forall c :: c in PostedCandidates(problem) && 5 <= c.minutes && c.start < problem.now + 48_600 * MINUTE
              ==> WorthTaking(problem, c)
  {
    var free := FreeWindows(problem);
    ScaleCovers(|FineCandidates(problem)|);
    var scale := Scale(|FineCandidates(problem)|);
    forall c | c in PostedCandidates(problem)
      ensures c.task in problem.tasks && 0 < c.minutes && problem.now <= c.start
      ensures c.score == SlotScore(c.task, c.start, c.minutes, problem.preferences, problem.now)
    {
      CandidateMinutes(problem, free, SLOT_MINUTES * scale, c);
      CandidateElements(problem, free, SLOT_MINUTES * scale, c);
      CandidatesAreSound(problem, scale, c);
    }
  }

  // ----- How far from the most minutes an optimal selection can be

  function MinutesOfAll(candidates: seq<CandidateSlot>): seq<int> {
    seq(|candidates|, i requires 0 <= i < |candidates| => candidates[i].minutes)
  }

  function Scores(candidates: seq<CandidateSlot>): seq<int> {
    seq(|candidates|, i requires 0 <= i < |candidates| => candidates[i].score)
  }

  function Ones(n: nat): seq<int> {
    seq(n, _ => 1)
  }

  function ChosenMinutes(candidates: seq<CandidateSlot>, chosen: seq<bool>): int
    requires |candidates| == |chosen|
  {
    Dot(MinutesOfAll(candidates), chosen)
  }

  function ChosenScores(candidates: seq<CandidateSlot>, chosen: seq<bool>): int
    requires |candidates| == |chosen|
  {
    Dot(Scores(candidates), chosen)
  }

  function ChosenCount(chosen: seq<bool>): int {
    Dot(Ones(|chosen|), chosen)
  }

  /** The most that the penalties can charge a candidate. */
  function Caps(candidates: seq<CandidateSlot>): seq<int> {
    seq(|candidates|, i requires 0 <= i < |candidates| => DAILY_BALANCE * candidates[i].minutes + 1750)
  }

  lemma {:induction false} DotLinear(a: seq<int>, factorA: int, b: seq<int>, factorB: int, sum: seq<int>,
                                     chosen: seq<bool>)
    requires |a| == |b| == |sum| == |chosen|
    requires forall i :: 0 <= i < |chosen| ==> sum[i] == factorA * a[i] + factorB * b[i]
    ensures Dot(sum, chosen) == factorA * Dot(a, chosen) + factorB * Dot(b, chosen)
  {
    if chosen != [] {
      var last := |chosen| - 1;
      DotLinear(a[..last], factorA, b[..last], factorB, sum[..last], chosen[..last]);
      if chosen[last] {
        assert factorA * (Dot(a[..last], chosen[..last]) + a[last])
            == factorA * Dot(a[..last], chosen[..last]) + factorA * a[last];
        assert factorB * (Dot(b[..last], chosen[..last]) + b[last])
            == factorB * Dot(b[..last], chosen[..last]) + factorB * b[last];
      }
    }
  }

  lemma WorthSplits(candidates: seq<CandidateSlot>, chosen: seq<bool>)
    requires |candidates| == |chosen|
    ensures Dot(Worth(candidates), chosen)
            == UNSCHEDULED_MINUTE * ChosenMinutes(candidates, chosen) + ChosenScores(candidates, chosen)
    ensures Dot(Caps(candidates), chosen)
            == DAILY_BALANCE * ChosenMinutes(candidates, chosen) + 1750 * ChosenCount(chosen)
  {
    DotLinear(MinutesOfAll(candidates), UNSCHEDULED_MINUTE, Scores(candidates), 1, Worth(candidates), chosen);
    DotLinear(MinutesOfAll(candidates), DAILY_BALANCE, Ones(|chosen|), 1750, Caps(candidates), chosen);
  }

  lemma {:induction false} DotNonNegative(coefficients: seq<int>, chosen: seq<bool>)
    requires |coefficients| == |chosen| && forall c :: c in coefficients ==> 0 <= c
    ensures 0 <= Dot(coefficients, chosen)
  {
    if chosen != [] {
      var last := |chosen| - 1;
      assert coefficients[last] in coefficients && forall c :: c in coefficients[..last] ==> c in coefficients;
      DotNonNegative(coefficients[..last], chosen[..last]);
    }
  }

  /** Choosing anything costs at least as much as choosing nothing. */
  lemma {:induction false} NothingCostsLeast(limits: seq<SoftLimit>, chosen: seq<bool>)
    requires WellSized(limits, |chosen|) && Weighted(limits)
    ensures Cost(limits, LeastValues(limits, Nothing(|chosen|))) <= Cost(limits, LeastValues(limits, chosen))
  {
    if limits != [] {
      var last := |limits| - 1;
      var limit := limits[last];
      assert limit in limits;
      NothingCostsLeast(limits[..last], chosen);
      assert LeastValues(limits, chosen)[..last] == LeastValues(limits[..last], chosen);
      assert LeastValues(limits, Nothing(|chosen|))[..last] == LeastValues(limits[..last], Nothing(|chosen|));
      DotOfNothing(limit.coefficients, Nothing(|chosen|));
      DotNonNegative(limit.coefficients, chosen);
      Scaled(Least(limit, Nothing(|chosen|)), Least(limit, chosen), limit.weight);
    }
  }

  /** The first n choices of a selection. */
  function UpTo(chosen: seq<bool>, n: nat): seq<bool>
    requires n <= |chosen|
  {
    chosen[..n] + Nothing(|chosen| - n)
  }

  /** A selection costs at most what choosing nothing costs and the caps of what it chooses. */
  lemma {:induction false} CostWithin(limits: seq<SoftLimit>, caps: seq<int>, chosen: seq<bool>, n: nat)
    requires WellSized(limits, |chosen|) && Weighted(limits)
    requires |caps| == |chosen| && n <= |chosen|
    requires forall k :: 0 <= k < |chosen| ==> Exposure(limits, k) <= caps[k]
    ensures Cost(limits, LeastValues(limits, UpTo(chosen, n)))
            <= Cost(limits, LeastValues(limits, Nothing(|chosen|))) + Dot(caps, UpTo(chosen, n))
  {
    if n == 0 {
      assert UpTo(chosen, 0) == Nothing(|chosen|);
      DotOfNothing(caps, Nothing(|chosen|));
    } else {
      var before := UpTo(chosen, n - 1);
      CostWithin(limits, caps, chosen, n - 1);
      if chosen[n - 1] {
        assert UpTo(chosen, n) == before[n - 1 := true];
        CostGrowsByExposure(limits, before, n - 1);
        DotChoose(caps, before, n - 1);
      } else {
        assert UpTo(chosen, n) == before;
      }
    }
  }

  lemma CostWithinCaps(problem: SchedulingProblem, candidates: seq<CandidateSlot>, chosen: seq<bool>)
    requires Proper(problem, candidates) && |chosen| == |candidates|
    ensures WellSized(Penalties(problem, candidates), |chosen|)
    ensures var limits := Penalties(problem, candidates);
      Cost(limits, LeastValues(limits, chosen))
      <= Cost(limits, LeastValues(limits, Nothing(|chosen|))) + Dot(Caps(candidates), chosen)
  {
    var limits := Penalties(problem, candidates);
    PenaltiesSized(problem, candidates);
    PenaltiesWeighted(problem, candidates);
    forall k | 0 <= k < |chosen|
      ensures Exposure(limits, k) <= Caps(candidates)[k]
    {
      assert candidates[k] in candidates;
      PenaltyCap(problem, candidates, k);
    }
    CostWithin(limits, Caps(candidates), chosen, |chosen|);
    assert UpTo(chosen, |chosen|) == chosen;
  }

  /** Scheduled minutes dominate: whatever another feasible selection schedules, an optimal one is
      behind it by no more than eight in a thousand of its minutes, 1750 points for each of its
      sessions, and the difference of the scores. */
  lemma OptimalityGap(problem: SchedulingProblem, candidates: seq<CandidateSlot>, chosen: seq<bool>, values: seq<int>,
                      other: seq<bool>)
    requires Proper(problem, candidates) && Optimal(problem, candidates, chosen, values)
    requires Feasible(problem, candidates, other)
    ensures (UNSCHEDULED_MINUTE - DAILY_BALANCE) * ChosenMinutes(candidates, other) + ChosenScores(candidates, other)
              - 1750 * ChosenCount(other)
            <= UNSCHEDULED_MINUTE * ChosenMinutes(candidates, chosen) + ChosenScores(candidates, chosen)
  {
    var limits := Penalties(problem, candidates);
    PenaltiesNeverForbid(problem, candidates, other);
    PenaltiesWeighted(problem, candidates);
    assert Solution(problem, candidates, other, LeastValues(limits, other));
    LeastCostsLeast(limits, chosen, values);
    NothingCostsLeast(limits, chosen);
    CostWithinCaps(problem, candidates, other);
    WorthSplits(candidates, chosen);
    WorthSplits(candidates, other);
  }

  lemma {:induction false} ScoresBetween(candidates: seq<CandidateSlot>, chosen: seq<bool>, least: int, most: int)
    requires |candidates| == |chosen|
    requires forall i :: 0 <= i < |chosen| && chosen[i] ==> least <= candidates[i].score <= most
    ensures least * ChosenCount(chosen) <= ChosenScores(candidates, chosen) <= most * ChosenCount(chosen)
  {
    if chosen != [] {
      var last := |chosen| - 1;
      ScoresBetween(candidates[..last], chosen[..last], least, most);
      assert Scores(candidates)[..last] == Scores(candidates[..last]);
      assert Ones(|chosen|)[..last] == Ones(last);
      var before := ChosenCount(chosen[..last]);
      if chosen[last] {
        assert least * (before + 1) == least * before + least && most * (before + 1) == most * before + most;
      }
    }
  }

  /** The gap in numbers, for sessions that start within 48,600 minutes. */
  lemma OptimalityGapInMinutes(problem: SchedulingProblem, chosen: seq<bool>, values: seq<int>, other: seq<bool>)
    requires problem.Valid() && UsablePieces(problem)
    requires Optimal(problem, PostedCandidates(problem), chosen, values)
    requires Feasible(problem, PostedCandidates(problem), other)
    requires forall c :: c in PostedCandidates(problem) ==> c.start < problem.now + 48_600 * MINUTE
    ensures var candidates := PostedCandidates(problem);
      UNSCHEDULED_MINUTE * (ChosenMinutes(candidates, other) - ChosenMinutes(candidates, chosen))
      <= DAILY_BALANCE * ChosenMinutes(candidates, other) + 4959 * ChosenCount(other)
         + HIGHEST_SCORE * ChosenCount(chosen)
  {
    var candidates := PostedCandidates(problem);
    PostedCandidatesProper(problem);
    forall i | 0 <= i < |candidates|
      ensures -3209 <= candidates[i].score <= HIGHEST_SCORE
    {
      PostedScore(problem, candidates[i]);
    }
    ScoresBetween(candidates, other, -3209, HIGHEST_SCORE);
    ScoresBetween(candidates, chosen, -3209, HIGHEST_SCORE);
    OptimalityGap(problem, candidates, chosen, values, other);
  }

  lemma PostedScore(problem: SchedulingProblem, c: CandidateSlot)
    requires problem.Valid() && UsablePieces(problem)
    requires c in PostedCandidates(problem) && c.start < problem.now + 48_600 * MINUTE
    ensures -3209 <= c.score <= HIGHEST_SCORE
  {
    var scale := Scale(|FineCandidates(problem)|);
    ScaleCovers(|FineCandidates(problem)|);
    CandidateMinutes(problem, FreeWindows(problem), SLOT_MINUTES * scale, c);
    CandidateElements(problem, FreeWindows(problem), SLOT_MINUTES * scale, c);
    CandidatesAreSound(problem, scale, c);
    ScoreAtLeast(c.task, c.start, c.minutes, problem.preferences, problem.now);
    ScoreAtMost(c.task, c.start, c.minutes, problem.preferences, problem.now);
    assert (c.start - problem.now) / MINUTE / SLOT_MINUTES <= 3239;
  }
}
