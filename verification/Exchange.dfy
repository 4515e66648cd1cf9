/** What an optimal plan prefers: exchanging one session for another shows what the scores order. */
module Exchange {
  import opened Arithmetic
  import opened Timeline
  import opened SchedulingModels
  import opened Sorting
  import opened LinearSums
  import opened Objectives
  import opened FreeTime
  import opened Candidates
  import opened Coarsening
  import opened ConstraintModel
  import opened SoftPenalties
  import opened Optimality
  import opened Placement
  import opened PenaltyCosts

  // ----- Exchanging one choice for another

  function Exchanged(chosen: seq<bool>, i: nat, j: nat): seq<bool>
    requires i < |chosen| && j < |chosen|
  {
    chosen[i := false][j := true]
  }

  lemma DotExchanged(coefficients: seq<int>, chosen: seq<bool>, i: nat, j: nat)
    requires |coefficients| == |chosen| && i < |chosen| && j < |chosen| && chosen[i] && !chosen[j]
    ensures Dot(coefficients, Exchanged(chosen, i, j)) == Dot(coefficients, chosen) - coefficients[i] + coefficients[j]
  {
    var without := chosen[i := false];
    DotChoose(coefficients, without, i);
    assert without[i := true] == chosen;
    DotChoose(coefficients, without, j);
  }

  /** A sum over distinct keys changes only by the keys whose amounts change. */
  lemma {:induction false} SumChangesAtTwo<K>(keys: seq<K>, before: K -> int, after: K -> int, a: K, b: K)
    requires forall p, q :: 0 <= p < q < |keys| ==> keys[p] != keys[q]
    requires a != b && forall k :: k in keys && k != a && k != b ==> before(k) == after(k)
    ensures SumOf(keys, after)
            == SumOf(keys, before)
               + (if a in keys then after(a) - before(a) else 0)
               + (if b in keys then after(b) - before(b) else 0)
  {
    if keys != [] {
      var front, last := keys[..|keys| - 1], keys[|keys| - 1];
      assert keys == front + [last];
      SumChangesAtTwo(front, before, after, a, b);
    }
  }

  lemma {:induction false} SameSums<K>(keys: seq<K>, before: K -> int, after: K -> int)
    requires forall k :: k in keys ==> before(k) == after(k)
    ensures SumOf(keys, after) == SumOf(keys, before)
  {
    if keys != [] {
      assert keys[|keys| - 1] in keys;
      SameSums(keys[..|keys| - 1], before, after);
    }
  }

  // ----- Sessions of the same day and length

  /** The two candidates are as long as each other and lie on one day. */
  predicate Alike(candidates: seq<CandidateSlot>, chosen: seq<bool>, i: nat, j: nat) {
    && |candidates| == |chosen| && i < |chosen| && j < |chosen| && chosen[i] && !chosen[j]
    && candidates[i].minutes == candidates[j].minutes
    && DayOf(candidates[i].start) == DayOf(candidates[j].start)
  }

  lemma MinutesExchanged(candidates: seq<CandidateSlot>, chosen: seq<bool>, i: nat, j: nat, day: int)
    requires Alike(candidates, chosen, i, j)
    ensures MinutesOn(candidates, Exchanged(chosen, i, j), day) == MinutesOn(candidates, chosen, day)
  {
    MinutesCounted(candidates, chosen, day);
    MinutesCounted(candidates, Exchanged(chosen, i, j), day);
    DotExchanged(DayMinutes(candidates, day), chosen, i, j);
  }

  lemma CrowdingExchanged(problem: SchedulingProblem, candidates: seq<CandidateSlot>, chosen: seq<bool>, i: nat,
                          j: nat)
    requires Alike(candidates, chosen, i, j)
    ensures CrowdingCost(problem, candidates, Exchanged(chosen, i, j)) == CrowdingCost(problem, candidates, chosen)
  {
    var days, required := DaysOf(candidates), TotalRequired(problem);
    if 2 <= |days| && required != 0 {
      var share := required / |days|;
      var before, after := CrowdingCosts(candidates, chosen, share),
                           CrowdingCosts(candidates, Exchanged(chosen, i, j), share);
      forall day | day in days
        ensures before(day) == after(day)
      {
        MinutesExchanged(candidates, chosen, i, j, day);
      }
      SameSums(days, before, after);
    }
  }

  lemma SessionsExchanged(problem: SchedulingProblem, candidates: seq<CandidateSlot>, chosen: seq<bool>, i: nat,
                          j: nat, taskId: string, day: int)
    requires Alike(candidates, chosen, i, j)
    ensures SessionsOfDay(problem, candidates, Exchanged(chosen, i, j), taskId, day)
            == SessionsOfDay(problem, candidates, chosen, taskId, day)
               - (if TaskDay(candidates[i]) == (taskId, day) then 1 else 0)
               + (if TaskDay(candidates[j]) == (taskId, day) then 1 else 0)
  {
    SessionsCounted(candidates, chosen, taskId, day);
    SessionsCounted(candidates, Exchanged(chosen, i, j), taskId, day);
    DotExchanged(SessionsOn(candidates, (taskId, day)), chosen, i, j);
  }

  /** The task that would get the session is the same one, or has fewer sessions on that day. */
  predicate NoBusier(problem: SchedulingProblem, candidates: seq<CandidateSlot>, chosen: seq<bool>, i: nat, j: nat)
    requires |candidates| == |chosen| && i < |chosen| && j < |chosen|
  {
    var day := DayOf(candidates[i].start);
    || candidates[i].task.id == candidates[j].task.id
    || SessionsOfDay(problem, candidates, chosen, candidates[j].task.id, day)
       < SessionsOfDay(problem, candidates, chosen, candidates[i].task.id, day)
  }

  lemma OneMoreOneLess(few: int, many: int)
    requires few < many
    ensures RepeatCost(few + 1) + RepeatCost(many - 1) <= RepeatCost(few) + RepeatCost(many)
  {
  }

  lemma RepeatsExchanged(problem: SchedulingProblem, candidates: seq<CandidateSlot>, chosen: seq<bool>, i: nat, j: nat)
    requires Alike(candidates, chosen, i, j) && NoBusier(problem, candidates, chosen, i, j)
    ensures SumOf(TaskDaysOf(candidates), RepeatCosts(problem, candidates, Exchanged(chosen, i, j)))
            <= SumOf(TaskDaysOf(candidates), RepeatCosts(problem, candidates, chosen))
  {
    var keys := TaskDaysOf(candidates);
    var before, after := RepeatCosts(problem, candidates, chosen),
                         RepeatCosts(problem, candidates, Exchanged(chosen, i, j));
    var a, b := TaskDay(candidates[i]), TaskDay(candidates[j]);
    CountedTaskDays(candidates);
    assert candidates[i] in candidates && candidates[j] in candidates;
    forall k | k in keys && (a == b || (k != a && k != b))
      ensures before(k) == after(k)
    {
      SessionsExchanged(problem, candidates, chosen, i, j, k.0, k.1);
    }
    if a == b {
      SameSums(keys, before, after);
    } else {
      SessionsExchanged(problem, candidates, chosen, i, j, a.0, a.1);
      SessionsExchanged(problem, candidates, chosen, i, j, b.0, b.1);
      OneMoreOneLess(SessionsOfDay(problem, candidates, chosen, b.0, b.1),
                     SessionsOfDay(problem, candidates, chosen, a.0, a.1));
      SumChangesAtTwo(keys, before, after, a, b);
    }
  }

  /** An optimal selection holds no session that another one of the same day and length could replace
      at a higher score. */
  lemma NoBetterExchange(problem: SchedulingProblem, candidates: seq<CandidateSlot>, chosen: seq<bool>,
                         values: seq<int>, i: nat, j: nat)
    requires Proper(problem, candidates) && Optimal(problem, candidates, chosen, values)
    requires Alike(candidates, chosen, i, j) && NoBusier(problem, candidates, chosen, i, j)
    requires Feasible(problem, candidates, Exchanged(chosen, i, j))
    ensures candidates[j].score <= candidates[i].score
  {
    var limits, other := Penalties(problem, candidates), Exchanged(chosen, i, j);
    LeastPenalties(problem, candidates, chosen);
    LeastPenalties(problem, candidates, other);
    CrowdingExchanged(problem, candidates, chosen, i, j);
    RepeatsExchanged(problem, candidates, chosen, i, j);
    DotExchanged(Worth(candidates), chosen, i, j);
    assert Objective(candidates, other, limits, LeastValues(limits, other))
        <= Objective(candidates, chosen, limits, values);
  }

  // ----- One place, two pieces

  /** Both candidates would take the same span of time, and the second one's piece is unplaced. */
  predicate CompeteFor(candidates: seq<CandidateSlot>, chosen: seq<bool>, i: nat, j: nat) {
    && |candidates| == |chosen| && i < |chosen| && j < |chosen| && chosen[i]
    && candidates[i].start == candidates[j].start && candidates[i].minutes == candidates[j].minutes
    && Unplaced(candidates, chosen, candidates[j].task, candidates[j].fragmentId)
  }

  /** The candidate ends after its minutes and scores what its place is worth to its task. */
  predicate Scored(problem: SchedulingProblem, c: CandidateSlot) {
    && problem.now <= c.start && c.end == c.start + c.minutes * MINUTE
    && c.score == SlotScore(c.task, c.start, c.minutes, problem.preferences, problem.now)
  }

  lemma PostedScored(problem: SchedulingProblem, k: nat)
    requires problem.Valid() && UsablePieces(problem) && k < |PostedCandidates(problem)|
    ensures Scored(problem, PostedCandidates(problem)[k]) && PostedCandidates(problem)[k].task in problem.tasks
  {
    var scale, c := Scale(|FineCandidates(problem)|), PostedCandidates(problem)[k];
    ScaleCovers(|FineCandidates(problem)|);
    assert c in PostedCandidates(problem);
    CandidateElements(problem, FreeWindows(problem), SLOT_MINUTES * scale, c);
    CandidatesAreSound(problem, scale, c);
  }

  lemma CompetitorFits(problem: SchedulingProblem, chosen: seq<bool>, i: nat, j: nat)
    requires problem.Valid() && problem.DistinctTaskIds() && UsablePieces(problem)
    requires Feasible(problem, PostedCandidates(problem), chosen) && CompeteFor(PostedCandidates(problem), chosen, i, j)
    ensures !chosen[j] && Feasible(problem, PostedCandidates(problem), Exchanged(chosen, i, j))
  {
    var candidates, other := PostedCandidates(problem), Exchanged(chosen, i, j);
    PostedScored(problem, i);
    PostedScored(problem, j);
    forall p, q | 0 <= p < q < |other| && other[p] && other[q]
      ensures !TooClose(candidates[p], candidates[q], problem.preferences.BreakTicks())
      ensures !SameFragment(candidates[p], candidates[q])
    {
      assert p != j ==> chosen[p];
      assert q != j ==> chosen[q];
      assert p == j && q < i ==> !TooClose(candidates[q], candidates[i], problem.preferences.BreakTicks());
      assert q == j && p < i ==> !TooClose(candidates[p], candidates[i], problem.preferences.BreakTicks());
    }
    RequirementsFollow(problem, other);
  }

  /** Of two pieces that compete for one place, an optimal plan holds none whose score is lower, unless
      the other's task has as many sessions on that day already. */
  lemma BetterScoreGetsThePlace(problem: SchedulingProblem, chosen: seq<bool>, values: seq<int>, i: nat, j: nat)
    requires problem.Valid() && problem.DistinctTaskIds() && UsablePieces(problem)
    requires Optimal(problem, PostedCandidates(problem), chosen, values)
    requires CompeteFor(PostedCandidates(problem), chosen, i, j)
    requires NoBusier(problem, PostedCandidates(problem), chosen, i, j)
    ensures PostedCandidates(problem)[j].score <= PostedCandidates(problem)[i].score
  {
    PostedCandidatesProper(problem);
    CompetitorFits(problem, chosen, i, j);
    NoBetterExchange(problem, PostedCandidates(problem), chosen, values, i, j);
  }

  /** Of two tasks with the same deadline that compete for one place, the more important one gets it. */
  lemma ImportantTaskGetsThePlace(problem: SchedulingProblem, chosen: seq<bool>, values: seq<int>, i: nat, j: nat)
    requires problem.Valid() && problem.DistinctTaskIds() && UsablePieces(problem)
    requires Optimal(problem, PostedCandidates(problem), chosen, values)
    requires CompeteFor(PostedCandidates(problem), chosen, i, j)
    requires NoBusier(problem, PostedCandidates(problem), chosen, i, j)
    requires PostedCandidates(problem)[i].task.deadline == PostedCandidates(problem)[j].task.deadline
    ensures PostedCandidates(problem)[i].task.priority <= PostedCandidates(problem)[j].task.priority
  {
    BetterScoreGetsThePlace(problem, chosen, values, i, j);
    PostedScored(problem, i);
    PostedScored(problem, j);
    ImportantScoresMore(problem, PostedCandidates(problem)[i], PostedCandidates(problem)[j]);
  }

  lemma ImportantScoresMore(problem: SchedulingProblem, a: CandidateSlot, b: CandidateSlot)
    requires Scored(problem, a) && Scored(problem, b) && a.start == b.start && a.minutes == b.minutes
    requires a.task.deadline == b.task.deadline && b.score <= a.score
    ensures a.task.priority <= b.task.priority
  {
    PriorityCounts(a.task, b.task.priority, a.start, a.minutes, problem.preferences, problem.now);
  }

  function HoursLeft(problem: SchedulingProblem, task: AcademicTask): int {
    (task.deadline - problem.now) / HOUR
  }

  predicate DueSoon(problem: SchedulingProblem, task: AcademicTask) {
    problem.now + HOUR <= task.deadline < problem.now + 169 * HOUR
  }

  /** Of two tasks of one priority that compete for one place, both due in one to 168 hours, the
      place goes to the one with fewer whole hours left. */
  lemma UrgentTaskGetsThePlace(problem: SchedulingProblem, chosen: seq<bool>, values: seq<int>, i: nat, j: nat)
    requires problem.Valid() && problem.DistinctTaskIds() && UsablePieces(problem)
    requires Optimal(problem, PostedCandidates(problem), chosen, values)
    requires CompeteFor(PostedCandidates(problem), chosen, i, j)
    requires NoBusier(problem, PostedCandidates(problem), chosen, i, j)
    requires PostedCandidates(problem)[i].task.priority == PostedCandidates(problem)[j].task.priority
    requires DueSoon(problem, PostedCandidates(problem)[i].task) && DueSoon(problem, PostedCandidates(problem)[j].task)
    ensures HoursLeft(problem, PostedCandidates(problem)[i].task)
            <= HoursLeft(problem, PostedCandidates(problem)[j].task)
  {
    BetterScoreGetsThePlace(problem, chosen, values, i, j);
    PostedScored(problem, i);
    PostedScored(problem, j);
    UrgentScoresMore(problem, PostedCandidates(problem)[i], PostedCandidates(problem)[j]);
  }

  lemma UrgentScoresMore(problem: SchedulingProblem, a: CandidateSlot, b: CandidateSlot)
    requires Scored(problem, a) && Scored(problem, b) && a.start == b.start && a.minutes == b.minutes
    requires a.task.priority == b.task.priority && b.score <= a.score
    requires DueSoon(problem, a.task) && DueSoon(problem, b.task)
    ensures HoursLeft(problem, a.task) <= HoursLeft(problem, b.task)
  {
    if HoursLeft(problem, b.task) < HoursLeft(problem, a.task) {
      SoonerScoresMore(a.task, b.task.deadline, a.start, a.minutes, problem.preferences, problem.now,
                       HoursLeft(problem, a.task) - HoursLeft(problem, b.task));
      OnlyTheseCount(problem, a, b);
    }
  }

  /** Of a task only its deadline and its priority matter to the score. */
  lemma OnlyTheseCount(problem: SchedulingProblem, a: CandidateSlot, b: CandidateSlot)
    requires Scored(problem, b) && a.start == b.start && a.minutes == b.minutes && a.task.priority == b.task.priority
    ensures b.score == SlotScore(a.task.(deadline := b.task.deadline), a.start, a.minutes, problem.preferences,
                                 problem.now)
  {
  }

  /** Each whole hour less, down to one, is worth forty points. */
  lemma {:induction false} SoonerScoresMore(task: AcademicTask, deadline: int, start: int, minutes: int,
                                            preferences: SchedulingPreference, anchor: int, hours: nat)
    requires (task.deadline - anchor) / HOUR == (deadline - anchor) / HOUR + hours
    requires anchor + HOUR <= deadline && task.deadline < anchor + 169 * HOUR
    ensures SlotScore(task.(deadline := deadline), start, minutes, preferences, anchor)
            == SlotScore(task, start, minutes, preferences, anchor) + 40 * hours
    decreases hours
  {
    if hours == 0 {
      DeadlineHoursCount(task, deadline, start, minutes, preferences, anchor);
    } else {
      var nearer := task.(deadline := task.deadline - HOUR);
      var left := task.deadline - anchor;
      DivisionLaw(left, HOUR);
      QuotientIs(left - HOUR, HOUR, left / HOUR - 1, left % HOUR);
      DivisionLaw(deadline - anchor, HOUR);
      DeadlineCounts(task, start, minutes, preferences, anchor);
      SoonerScoresMore(nearer, deadline, start, minutes, preferences, anchor, hours - 1);
    }
  }

  // ----- One piece, two places

  /** The same piece could start some slots earlier on the same day, clear of all other sessions. */
  predicate CouldStartEarlier(problem: SchedulingProblem, candidates: seq<CandidateSlot>, chosen: seq<bool>, i: nat,
                              j: nat, slots: nat)
  {
    && |candidates| == |chosen| && i < |chosen| && j < |chosen| && chosen[i]
    && SameFragment(candidates[i], candidates[j])
    && 0 < slots && candidates[j].start + slots * SLOT == candidates[i].start
    && DayOf(candidates[j].start) == DayOf(candidates[i].start)
    && ClearOfChosen(candidates, chosen[i := false], candidates[j].start, candidates[j].end,
                     problem.preferences.BreakTicks())
  }

  lemma SamePiece(problem: SchedulingProblem, i: nat, j: nat)
    requires problem.Valid() && problem.DistinctTaskIds() && UsablePieces(problem)
    requires i < |PostedCandidates(problem)| && j < |PostedCandidates(problem)|
    requires SameFragment(PostedCandidates(problem)[i], PostedCandidates(problem)[j])
    ensures PostedCandidates(problem)[i].task == PostedCandidates(problem)[j].task
    ensures PostedCandidates(problem)[i].minutes == PostedCandidates(problem)[j].minutes
  {
    var a, b := PostedCandidates(problem)[i], PostedCandidates(problem)[j];
    PostedScored(problem, i);
    PostedScored(problem, j);
    SameTask(problem, a.task, b.task);
    PostedPlaces(problem, a.task);
    assert a in PostedCandidates(problem) && b in PostedCandidates(problem);
  }

  lemma EarlierFits(problem: SchedulingProblem, chosen: seq<bool>, i: nat, j: nat, slots: nat)
    requires problem.Valid() && problem.DistinctTaskIds() && UsablePieces(problem)
    requires Feasible(problem, PostedCandidates(problem), chosen)
    requires CouldStartEarlier(problem, PostedCandidates(problem), chosen, i, j, slots)
    ensures !chosen[j] && Feasible(problem, PostedCandidates(problem), Exchanged(chosen, i, j))
  {
    var candidates, gap := PostedCandidates(problem), problem.preferences.BreakTicks();
    var other := Exchanged(chosen, i, j);
    SamePiece(problem, i, j);
    PostedSpans(problem);
    forall p, q | 0 <= p < q < |other| && other[p] && other[q]
      ensures !TooClose(candidates[p], candidates[q], gap) && !SameFragment(candidates[p], candidates[q])
    {
      assert candidates[p] in candidates && candidates[q] in candidates;
      assert p != j ==> p != i && chosen[p];
      assert q != j ==> q != i && chosen[q];
      assert p < i && chosen[p] ==> !SameFragment(candidates[p], candidates[i]);
      assert i < p && chosen[p] ==> !SameFragment(candidates[i], candidates[p]);
      assert q < i && chosen[q] ==> !SameFragment(candidates[q], candidates[i]);
      assert i < q && chosen[q] ==> !SameFragment(candidates[i], candidates[q]);
      BreaksMeanSeparation(candidates[p], candidates[q], gap);
    }
    RequirementsFollow(problem, other);
  }

  /** A piece of an optimal plan could not start earlier on its day, unless that takes it out of the
      preferred hours. */
  lemma PiecesStartEarly(problem: SchedulingProblem, chosen: seq<bool>, values: seq<int>, i: nat, j: nat, slots: nat)
    requires problem.Valid() && problem.DistinctTaskIds() && UsablePieces(problem)
    requires Optimal(problem, PostedCandidates(problem), chosen, values)
    requires i < |PostedCandidates(problem)| && j < |PostedCandidates(problem)|
    requires var period := problem.preferences.preferredPeriod;
      InPreferredHours(period, PostedCandidates(problem)[i].start)
      ==> InPreferredHours(period, PostedCandidates(problem)[j].start)
    ensures !CouldStartEarlier(problem, PostedCandidates(problem), chosen, i, j, slots)
  {
    if CouldStartEarlier(problem, PostedCandidates(problem), chosen, i, j, slots) {
      EarlierIsNoBetter(problem, chosen, values, i, j, slots);
      EarlierPlaceScoresMore(problem, i, j, slots);
    }
  }

  lemma EarlierIsNoBetter(problem: SchedulingProblem, chosen: seq<bool>, values: seq<int>, i: nat, j: nat, slots: nat)
    requires problem.Valid() && problem.DistinctTaskIds() && UsablePieces(problem)
    requires Optimal(problem, PostedCandidates(problem), chosen, values)
    requires CouldStartEarlier(problem, PostedCandidates(problem), chosen, i, j, slots)
    ensures PostedCandidates(problem)[j].score <= PostedCandidates(problem)[i].score
  {
    EarlierFits(problem, chosen, i, j, slots);
    SamePiece(problem, i, j);
    PostedCandidatesProper(problem);
    NoBetterExchange(problem, PostedCandidates(problem), chosen, values, i, j);
  }

  lemma EarlierPlaceScoresMore(problem: SchedulingProblem, i: nat, j: nat, slots: nat)
    requires problem.Valid() && problem.DistinctTaskIds() && UsablePieces(problem)
    requires i < |PostedCandidates(problem)| && j < |PostedCandidates(problem)| && 0 < slots
    requires SameFragment(PostedCandidates(problem)[i], PostedCandidates(problem)[j])
    requires PostedCandidates(problem)[j].start + slots * SLOT == PostedCandidates(problem)[i].start
    requires var period := problem.preferences.preferredPeriod;
      InPreferredHours(period, PostedCandidates(problem)[i].start)
      ==> InPreferredHours(period, PostedCandidates(problem)[j].start)
    ensures PostedCandidates(problem)[i].score < PostedCandidates(problem)[j].score
  {
    SamePiece(problem, i, j);
    PostedScored(problem, i);
    PostedScored(problem, j);
    EarlierScoresMore(problem, PostedCandidates(problem)[i].task, PostedCandidates(problem)[j].start, slots,
                      PostedCandidates(problem)[j].minutes);
  }

  lemma EarlierScoresMore(problem: SchedulingProblem, task: AcademicTask, start: int, slots: nat, minutes: int)
    requires problem.now <= start && 0 < slots
    requires var period := problem.preferences.preferredPeriod;
      InPreferredHours(period, start + slots * SLOT) ==> InPreferredHours(period, start)
    ensures SlotScore(task, start + slots * SLOT, minutes, problem.preferences, problem.now)
            < SlotScore(task, start, minutes, problem.preferences, problem.now)
  {
    var p := problem.preferences;
    PreferredHoursCount(task, start, minutes, p, problem.now);
    PreferredHoursCount(task, start + slots * SLOT, minutes, p, problem.now);
    EarlierStartsCount(task, start, slots, minutes, p.(preferredPeriod := AnyPeriod), problem.now);
  }
}
