/** A concrete plan that shows the break is not kept between a new session and a locked one. */
module LockedBreak {
  import opened Wrappers
  import opened Timeline
  import opened SchedulingModels
  import opened Sorting
  import opened Decomposition
  import opened FreeTime
  import opened Candidates
  import opened Coarsening
  import opened ConstraintModel
  import opened SoftPenalties
  import opened Optimality
  import opened Placement
  import opened AdjustmentChecker
  import opened Scheduler
  import opened SchedulerTheorems

  const NINE := 9 * HOUR
  const TEN := 10 * HOUR
  const ELEVEN := 11 * HOUR

  /** A two-hour window whose first hour is locked, and an hour of work left. */
  function LockedMorning(): SchedulingProblem {
    SchedulingProblem(
      [AcademicTask("essay", "Essay", DAY, 120, 3)],
      [Interval(NINE, ELEVEN)],
      [],
      SchedulingPreference(8 * HOUR, 22 * HOUR, 60, 90, 15, true, AnyPeriod),
      [StudySession(Some("locked"), "essay", NINE, TEN, true)],
      0)
  }

  function RightAfterLocked(): CandidateSlot {
    Slot(LockedMorning(), LockedMorning().tasks[0], 0, 60, TEN)
  }

  lemma OnlyTheSecondHourIsFree()
    ensures FreeWindows(LockedMorning()) == [Interval(TEN, ELEVEN)]
  {
    var problem, window := LockedMorning(), Interval(NINE, ELEVEN);
    AlignedRoundsToItself(NINE);
    AlignedRoundsToItself(TEN);
    AlignedRoundsToItself(ELEVEN);
    assert ClipDay(window, problem.preferences, 0) == [window];
    assert ClipDays(window, problem.preferences, DAY, 0) == [];
    assert ClipWindow(window, problem.preferences) == [window];
    assert ClipAll([], problem.preferences) == [];
    assert ClipAll([window], problem.preferences) == [window];
    assert NonEmpty([]) == [];
    assert Clipped([window], problem.preferences) == [window];
    var locked := Interval(NINE, TEN);
    assert LockedTime(problem.locked) == [locked];
    assert Carve(window, locked) == [Interval(TEN, ELEVEN)];
    assert CarveAll([], locked) == [];
    assert CarveAll([window], locked) == [Interval(TEN, ELEVEN)];
    assert Without([window], []) == [window];
    assert [locked][..0] == [];
    assert Without([window], [locked]) == [Interval(TEN, ELEVEN)];
  }

  lemma OneStartInTheFreeHour()
    ensures WindowSlots(LockedMorning(), LockedMorning().tasks[0], 0, 60, Interval(TEN, ELEVEN), SLOT_MINUTES)
            == [RightAfterLocked()]
  {
    var problem, window := LockedMorning(), Interval(TEN, ELEVEN);
    var task := problem.tasks[0];
    AlignedRoundsToItself(TEN);
    assert FirstStart(problem, window) == TEN && LatestStart(task, 60, window) == TEN;
    assert Run(problem, task, 0, 60, TEN + SLOT, TEN, SLOT_MINUTES) == [];
  }

  lemma OnlyOneCandidate()
    ensures PostedCandidates(LockedMorning()) == [RightAfterLocked()]
  {
    var problem, window := LockedMorning(), Interval(TEN, ELEVEN);
    var task := problem.tasks[0];
    OnlyTheSecondHourIsFree();
    EssayHasAnHourLeft();
    OneStartInTheFreeHour();
    assert FragmentSlots(problem, task, 0, 60, [], SLOT_MINUTES) == [];
    assert [window][..0] == [];
    SingleTaskSlots(problem, task, 60, [window], SLOT_MINUTES);
    assert Sort<AcademicTask>([], NotAfter) == [];
    assert VisitOrder(problem.tasks) == [task];
    assert FineCandidates(problem) == [RightAfterLocked()];
  }

  lemma EssayHasAnHourLeft()
    ensures Requirement(LockedMorning(), LockedMorning().tasks[0]) == 60
    ensures TaskPieces(LockedMorning(), LockedMorning().tasks[0]) == [60]
  {
    var problem := LockedMorning();
    MinutesAppend([], problem.locked[0], "essay");
    assert [] + [problem.locked[0]] == problem.locked;
    assert MinutesFor(problem.locked, "essay") == 60;
    assert Chunks(60, 60) == [60];
  }

  lemma LockedBlockAllowed()
    ensures BlockAllowed(LockedMorning(), LockedMorning().locked[0])
  {
    var problem := LockedMorning();
    assert TaskFor(problem.tasks, "essay") == Some(problem.tasks[0]);
    assert Interval(NINE, ELEVEN).Contains(NINE, TEN) && problem.windows[0] in problem.windows;
    assert DayOf(NINE) == 0 && DayOf(TEN) == 0;
  }

  lemma LockedPartIsFine()
    ensures LockedMorning().Valid() && LockedMorning().DistinctTaskIds()
    ensures Acceptable(LockedMorning(), LockedMorning().locked)
  {
    var problem := LockedMorning();
    LockedBlockAllowed();
    MinutesAppend([], problem.locked[0], "essay");
    assert [] + [problem.locked[0]] == problem.locked;
    assert TaskFor(problem.tasks, "essay") == Some(problem.tasks[0]);
    assert MinutesFor(problem.locked, "essay") == 60;
    assert WithinEstimates(problem, problem.locked);
  }

  lemma BothSelections(chosen: seq<bool>)
    requires |chosen| == 1
    ensures chosen == [true] || chosen == [false]
  {
    assert chosen[0] ==> chosen == [true];
    assert !chosen[0] ==> chosen == [false];
  }

  lemma TakingTheHourIsPossible()
    ensures Feasible(LockedMorning(), PostedCandidates(LockedMorning()), [true])
    ensures WorthTaking(LockedMorning(), RightAfterLocked())
    ensures SoftPenalties.Proper(LockedMorning(), PostedCandidates(LockedMorning()))
  {
    LockedPartIsFine();
    OnlyOneCandidate();
    AnyCandidateAlone(LockedMorning(), 0);
    assert OnlyAt(1, 0) == [true];
    PostedCandidatesProper(LockedMorning());
    assert RightAfterLocked() in PostedCandidates(LockedMorning());
  }

  /** The best values of the penalties when the free hour is used. */
  function BestValues(): seq<int> {
    PenaltiesSized(LockedMorning(), [RightAfterLocked()]);
    LeastValues(Penalties(LockedMorning(), [RightAfterLocked()]), [true])
  }

  /** Any solution is worse than using the free hour, or is using it. */
  lemma TakingTheHourIsBest(chosen: seq<bool>, values: seq<int>)
    requires Solution(LockedMorning(), PostedCandidates(LockedMorning()), chosen, values)
    ensures var problem, candidates := LockedMorning(), PostedCandidates(LockedMorning());
      var limits := Penalties(problem, candidates);
      && Solution(problem, candidates, [true], BestValues())
      && Objective(candidates, chosen, limits, values) <= Objective(candidates, [true], limits, BestValues())
      && (chosen == [false]
        ==> Objective(candidates, chosen, limits, values) < Objective(candidates, [true], limits, BestValues()))
  {
    var problem, candidates := LockedMorning(), PostedCandidates(LockedMorning());
    OnlyOneCandidate();
    TakingTheHourIsPossible();
    BothSelections(chosen);
    if chosen == [false] {
      assert chosen[0 := true] == [true];
      AddingImproves(problem, candidates, chosen, values, 0);
    } else {
      PenaltiesNeverForbid(problem, candidates, [true]);
      PenaltiesWeighted(problem, candidates);
      LeastCostsLeast(Penalties(problem, candidates), [true], values);
    }
  }

  lemma OptimalMeansTaken(chosen: seq<bool>, values: seq<int>)
    requires Optimal(LockedMorning(), PostedCandidates(LockedMorning()), chosen, values)
    ensures chosen == [true]
  {
    OnlyOneCandidate();
    BothSelections(chosen);
    TakingTheHourIsBest(chosen, values);
  }

  lemma TakenIsOptimal()
    ensures Optimal(LockedMorning(), PostedCandidates(LockedMorning()), [true], BestValues())
  {
    var problem, candidates := LockedMorning(), PostedCandidates(LockedMorning());
    OnlyOneCandidate();
    TakingTheHourIsPossible();
    PenaltiesNeverForbid(problem, candidates, [true]);
    assert Solution(problem, candidates, [true], BestValues());
    forall other, values | Solution(problem, candidates, other, values)
      ensures Objective(candidates, other, Penalties(problem, candidates), values)
              <= Objective(candidates, [true], Penalties(problem, candidates), BestValues())
    {
      TakingTheHourIsBest(other, values);
    }
  }

  lemma TakenIsRefused(answer: SolverAnswer)
    requires answer.Answer? && answer.chosen == [true]
    requires |answer.chosen| == |PostedCandidates(LockedMorning())|
    ensures !Acceptable(LockedMorning(), Solved(LockedMorning(), answer).sessions)
  {
    var problem, c := LockedMorning(), RightAfterLocked();
    LockedPartIsFine();
    OnlyOneCandidate();
    TakingTheHourIsPossible();
    LockedScheduleAcceptedIff(problem, answer);
    ChosenIsNew(problem, [true], 0);
    assert !ApartBy(problem.preferences.BreakTicks())(problem.locked[0], ToSession(c));
  }

  /** A valid problem whose locked part is accepted on its own and whose optimal plans are all
      refused: the one new session starts the moment the locked one ends. */
  lemma BreakAroundLockedNotKept()
    ensures var problem := LockedMorning();
            && problem.Valid() && problem.DistinctTaskIds() && Acceptable(problem, problem.locked)
            && AnswersModel(problem, Answer(true, [true], BestValues()))
            && forall answer :: AnswersModel(problem, answer) && answer.Answer? && answer.proven
                 ==> !Acceptable(problem, Solved(problem, answer).sessions)
  {
    LockedPartIsFine();
    TakenIsOptimal();
    forall answer | AnswersModel(LockedMorning(), answer) && answer.Answer? && answer.proven
      ensures !Acceptable(LockedMorning(), Solved(LockedMorning(), answer).sessions)
    {
      OptimalMeansTaken(answer.chosen, answer.values);
      TakenIsRefused(answer);
    }
  }
}
