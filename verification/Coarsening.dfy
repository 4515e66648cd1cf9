/** Coarsening: when there are too many candidates the start-time grid is widened. */
module Coarsening {
  import opened Arithmetic
  import opened Timeline
  import opened SchedulingModels
  import opened FreeTime
  import opened Decomposition
  import opened Sorting
  import opened Candidates

  const MAX_CANDIDATES := 4000

  /** Ceiling division, written with the floor of the negated count. */
  function ScaleFor(count: int): int {
    -(-count / MAX_CANDIDATES)
  }

  function Scale(count: nat): int {
    if MAX_CANDIDATES < count then ScaleFor(count) else 1
  }

  function FineCandidates(problem: SchedulingProblem): seq<CandidateSlot>
    requires problem.preferences.Valid()
  {
    CandidateSlots(problem, FreeWindows(problem), SLOT_MINUTES)
  }

  lemma ScaleCovers(count: nat)
    ensures 1 <= Scale(count) && count <= Scale(count) * MAX_CANDIDATES
  {
  }

  /** The candidates the model is built from. */
  function PostedCandidates(problem: SchedulingProblem): seq<CandidateSlot>
    requires problem.preferences.Valid()
  {
    ScaleCovers(|FineCandidates(problem)|);
    CandidateSlots(problem, FreeWindows(problem), SLOT_MINUTES * Scale(|FineCandidates(problem)|))
  }

  lemma NestedQuotient(span: int, size: int, scale: int)
    requires 0 <= span && 0 < size && 0 < scale && 0 < size * scale
    ensures span / (size * scale) == span / size / scale
  {
    var outer, rest := span / (size * scale), span % (size * scale);
    DivisionLaw(span, size * scale);
    DivisionLaw(rest, size);
    var inner := rest / size;
    assert span == (outer * scale + inner) * size + rest % size;
    QuotientIs(span, size, outer * scale + inner, rest % size);
    if inner < 0 {
      ProductAtLeast(-inner, size);
    }
    if scale <= inner {
      BelowProduct(inner, scale, size);
    }
    QuotientIs(outer * scale + inner, scale, outer, inner);
  }

  lemma BelowProduct(a: int, b: int, size: int)
    requires b <= a && 0 < size
    ensures size * b <= a * size
  {
  }

  lemma {:induction false} RunLength(problem: SchedulingProblem, task: AcademicTask, fragmentId: nat, minutes: int,
                                     start: int, latest: int, step: int)
    requires 0 < step
    ensures |Run(problem, task, fragmentId, minutes, start, latest, step)|
            == if latest < start then 0 else (latest - start) / (step * MINUTE) + 1
    decreases latest - start
  {
    if start <= latest {
      var stride := step * MINUTE;
      RunLength(problem, task, fragmentId, minutes, start + stride, latest, step);
      DivisionLaw(latest - start, stride);
      if latest < start + stride {
        QuotientIs(latest - start, stride, 0, latest - start);
      } else {
        QuotientIs(latest - start - stride, stride, (latest - start) / stride - 1, (latest - start) % stride);
      }
    }
  }

  // ----- Counting: a group is a piece together with a free window

  /** How many starts on the 15-minute grid the window offers the piece. */
  function GroupSize(problem: SchedulingProblem, task: AcademicTask, minutes: int, window: Interval): nat {
    var first, latest := FirstStart(problem, window), LatestStart(task, minutes, window);
    if latest < first then 0 else (latest - first) / SLOT + 1
  }

  function PieceSizes(problem: SchedulingProblem, task: AcademicTask, minutes: int, free: seq<Interval>): seq<int> {
    seq(|free|, k requires 0 <= k < |free| => GroupSize(problem, task, minutes, free[k]))
  }

  function TaskSizes(problem: SchedulingProblem, task: AcademicTask, pieces: seq<int>, free: seq<Interval>): seq<int> {
    if pieces == [] then []
    else
      var last := |pieces| - 1;
      TaskSizes(problem, task, pieces[..last], free) + PieceSizes(problem, task, pieces[last], free)
  }

  function SizesOfTasks(problem: SchedulingProblem, tasks: seq<AcademicTask>, free: seq<Interval>): seq<int>
    requires problem.preferences.Valid()
  {
    if tasks == [] then []
    else
      var task := tasks[|tasks| - 1];
      SizesOfTasks(problem, tasks[..|tasks| - 1], free) + TaskSizes(problem, task, TaskPieces(problem, task), free)
  }

  /** The sizes of all groups, from the task list, the pieces and the ends of the free windows alone. */
  function GroupSizes(problem: SchedulingProblem): seq<int>
    requires problem.preferences.Valid()
  {
    SizesOfTasks(problem, VisitOrder(problem.tasks), FreeWindows(problem))
  }

  /** What a group of a given size keeps on a grid `scale` times as wide. */
  function Kept(scale: int): int -> int {
    (size: int) => if 0 < scale then CeilDiv(size, scale) else 0
  }

  function OneIfAny(): int -> int {
    (size: int) => if 0 < size then 1 else 0
  }

  function Total(sizes: seq<int>): int {
    SumOf(sizes, Kept(1))
  }

  /** The number of groups that offer a start. */
  function Groups(problem: SchedulingProblem): int
    requires problem.preferences.Valid()
  {
    SumOf(GroupSizes(problem), OneIfAny())
  }

  lemma CoarseLength(span: int, scale: int)
    requires 0 <= span && 0 < scale
    ensures span / (SLOT_MINUTES * scale * MINUTE) + 1 == CeilDiv(span / SLOT + 1, scale)
  {
    var steps := span / SLOT;
    assert SLOT_MINUTES * scale * MINUTE == SLOT * scale;
    NestedQuotient(span, SLOT, scale);
    DivisionLaw(steps, scale);
    assert steps + 1 + scale - 1 == (steps / scale + 1) * scale + steps % scale;
    QuotientIs(steps + 1 + scale - 1, scale, steps / scale + 1, steps % scale);
  }

  /** On any grid, a window offers a piece its group's size divided by the scale, rounded up. */
  lemma GroupShrinks(problem: SchedulingProblem, task: AcademicTask, fragmentId: nat, minutes: int,
                     window: Interval, scale: int)
    requires 0 < scale
    ensures |WindowSlots(problem, task, fragmentId, minutes, window, SLOT_MINUTES * scale)|
            == CeilDiv(GroupSize(problem, task, minutes, window), scale)
  {
    var first, latest := FirstStart(problem, window), LatestStart(task, minutes, window);
    RunLength(problem, task, fragmentId, minutes, first, latest, SLOT_MINUTES * scale);
    if first <= latest {
      CoarseLength(latest - first, scale);
    } else {
      QuotientIs(scale - 1, scale, 0, scale - 1);
    }
  }

  lemma {:induction false} PieceShrinks(problem: SchedulingProblem, task: AcademicTask, fragmentId: nat, minutes: int,
                                        free: seq<Interval>, scale: int)
    requires 0 < scale
    ensures |FragmentSlots(problem, task, fragmentId, minutes, free, SLOT_MINUTES * scale)|
            == SumOf(PieceSizes(problem, task, minutes, free), Kept(scale))
  {
    if free != [] {
      var front, last := free[..|free| - 1], free[|free| - 1];
      PieceShrinks(problem, task, fragmentId, minutes, front, scale);
      GroupShrinks(problem, task, fragmentId, minutes, last, scale);
      assert PieceSizes(problem, task, minutes, free)[..|free| - 1] == PieceSizes(problem, task, minutes, front);
    }
  }

  lemma {:induction false} TaskShrinks(problem: SchedulingProblem, task: AcademicTask, pieces: seq<int>,
                                       free: seq<Interval>, scale: int)
    requires 0 < scale
    ensures |TaskSlots(problem, task, pieces, free, SLOT_MINUTES * scale)|
            == SumOf(TaskSizes(problem, task, pieces, free), Kept(scale))
  {
    if pieces != [] {
      var last := |pieces| - 1;
      var front, more := TaskSizes(problem, task, pieces[..last], free), PieceSizes(problem, task, pieces[last], free);
      TaskShrinks(problem, task, pieces[..last], free, scale);
      PieceShrinks(problem, task, last, pieces[last], free, scale);
      SumConcat(front, more, Kept(scale));
      assert TaskSizes(problem, task, pieces, free) == front + more;
    }
  }

  lemma {:induction false} AllShrink(problem: SchedulingProblem, tasks: seq<AcademicTask>, free: seq<Interval>,
                                     scale: int)
    requires problem.preferences.Valid() && 0 < scale
    ensures |SlotsOfTasks(problem, tasks, free, SLOT_MINUTES * scale)|
            == SumOf(SizesOfTasks(problem, tasks, free), Kept(scale))
  {
    if tasks != [] {
      var front, task := tasks[..|tasks| - 1], tasks[|tasks| - 1];
      var pieces := TaskPieces(problem, task);
      var before, more := SizesOfTasks(problem, front, free), TaskSizes(problem, task, pieces, free);
      AllShrink(problem, front, free, scale);
      TaskShrinks(problem, task, pieces, free, scale);
      SumConcat(before, more, Kept(scale));
      assert SizesOfTasks(problem, tasks, free) == before + more;
    }
  }

  /** The exact number of candidates before and after coarsening, computed from the group sizes
      alone: the fine grid keeps them all, a coarser one divides each and rounds it up. */
  lemma CandidateCounts(problem: SchedulingProblem)
    requires problem.Valid()
    ensures |FineCandidates(problem)| == Total(GroupSizes(problem))
    ensures |PostedCandidates(problem)| == SumOf(GroupSizes(problem), Kept(Scale(|FineCandidates(problem)|)))
  {
    ScaleCovers(|FineCandidates(problem)|);
    AllShrink(problem, VisitOrder(problem.tasks), FreeWindows(problem), 1);
    AllShrink(problem, VisitOrder(problem.tasks), FreeWindows(problem), Scale(|FineCandidates(problem)|));
  }

  /** Coarsening brings the model within 4000 candidates exactly when the group sizes, each divided
      by the scale and rounded up, add up to no more; without coarsening they always do. */
  lemma CoarseningSufficesIff(problem: SchedulingProblem)
    requires problem.Valid()
    ensures |PostedCandidates(problem)| <= MAX_CANDIDATES
            <==> || Total(GroupSizes(problem)) <= MAX_CANDIDATES
                 || SumOf(GroupSizes(problem), Kept(ScaleFor(Total(GroupSizes(problem))))) <= MAX_CANDIDATES
  {
    CandidateCounts(problem);
  }

  lemma KeptAtMost(size: int, scale: int)
    requires 0 <= size && 0 < scale
    ensures scale * Kept(scale)(size) <= size + (scale - 1) * OneIfAny()(size)
    ensures Kept(1)(size) == size
  {
    var value := size + scale - 1;
    DivisionLaw(value, scale);
    if size == 0 {
      QuotientIs(value, scale, 0, scale - 1);
    }
  }

  lemma AddBounds(scale: int, keptA: int, fineA: int, groupsA: int, keptB: int, fineB: int, groupsB: int)
    requires scale * keptA <= fineA + (scale - 1) * groupsA
    requires scale * keptB <= fineB + (scale - 1) * groupsB
    ensures scale * (keptA + keptB) <= fineA + fineB + (scale - 1) * (groupsA + groupsB)
  {
    assert scale * (keptA + keptB) == scale * keptA + scale * keptB;
    assert (scale - 1) * (groupsA + groupsB) == (scale - 1) * groupsA + (scale - 1) * groupsB;
  }

  /** Rounding up costs each group that offers a start less than one scale. */
  lemma {:induction false} SumKeptAtMost(sizes: seq<int>, scale: int)
    requires 0 < scale && forall size :: size in sizes ==> 0 <= size
    ensures scale * SumOf(sizes, Kept(scale)) <= Total(sizes) + (scale - 1) * SumOf(sizes, OneIfAny())
  {
    if sizes != [] {
      var front, last := sizes[..|sizes| - 1], sizes[|sizes| - 1];
      assert last in sizes && forall size :: size in front ==> size in sizes;
      SumKeptAtMost(front, scale);
      KeptAtMost(last, scale);
      AddBounds(scale, SumOf(front, Kept(scale)), Total(front), SumOf(front, OneIfAny()),
                Kept(scale)(last), last, OneIfAny()(last));
    }
  }

  lemma {:induction false} TaskSizesNonNegative(problem: SchedulingProblem, task: AcademicTask, pieces: seq<int>,
                                                free: seq<Interval>)
    ensures forall size :: size in TaskSizes(problem, task, pieces, free) ==> 0 <= size
  {
    if pieces != [] {
      TaskSizesNonNegative(problem, task, pieces[..|pieces| - 1], free);
    }
  }

  lemma {:induction false} SizesNonNegative(problem: SchedulingProblem, tasks: seq<AcademicTask>, free: seq<Interval>)
    requires problem.preferences.Valid()
    ensures forall size :: size in SizesOfTasks(problem, tasks, free) ==> 0 <= size
  {
    if tasks != [] {
      var task := tasks[|tasks| - 1];
      SizesNonNegative(problem, tasks[..|tasks| - 1], free);
      TaskSizesNonNegative(problem, task, TaskPieces(problem, task), free);
    }
  }

  lemma {:induction false} AnyNonNegative(sizes: seq<int>)
    ensures 0 <= SumOf(sizes, OneIfAny())
  {
    if sizes != [] {
      AnyNonNegative(sizes[..|sizes| - 1]);
    }
  }

  lemma CancelScale(scale: int, count: int, groups: int)
    requires 0 < scale && 0 <= groups
    requires scale * count <= scale * MAX_CANDIDATES + (scale - 1) * groups
    ensures count <= MAX_CANDIDATES + groups
  {
    assert scale * (MAX_CANDIDATES + groups + 1) == scale * MAX_CANDIDATES + scale * groups + scale;
    assert (scale - 1) * groups == scale * groups - groups;
    if MAX_CANDIDATES + groups + 1 <= count {
      BelowProduct(count, MAX_CANDIDATES + groups + 1, scale);
    }
  }

  /** The model never has more than 4000 candidates plus one per non-empty group, and coarsening
      only removes candidates. */
  lemma PostedCandidatesBounded(problem: SchedulingProblem)
    requires problem.Valid()
    ensures |PostedCandidates(problem)| <= MAX_CANDIDATES + Groups(problem)
    ensures forall c :: c in PostedCandidates(problem) ==> c in FineCandidates(problem)
  {
    var fine := FineCandidates(problem);
    var scale := Scale(|fine|);
    ScaleCovers(|fine|);
    CandidateCounts(problem);
    SizesNonNegative(problem, VisitOrder(problem.tasks), FreeWindows(problem));
    SumKeptAtMost(GroupSizes(problem), scale);
    AnyNonNegative(GroupSizes(problem));
    assert scale * MAX_CANDIDATES == MAX_CANDIDATES * scale;
    CancelScale(scale, |PostedCandidates(problem)|, Groups(problem));
    forall c | c in PostedCandidates(problem)
      ensures c in fine
    {
      CoarseSlotIsFine(problem, scale, c);
    }
  }

  /** A group that offers a start keeps its earliest one. */
  lemma EarliestSurvives(problem: SchedulingProblem, task: AcademicTask, fragmentId: nat, minutes: int,
                         window: Interval, scale: int)
    requires 0 < scale && WindowSlots(problem, task, fragmentId, minutes, window, SLOT_MINUTES) != []
    ensures var coarse := WindowSlots(problem, task, fragmentId, minutes, window, SLOT_MINUTES * scale);
            coarse != [] && coarse[0] == WindowSlots(problem, task, fragmentId, minutes, window, SLOT_MINUTES)[0]
  {
  }

  /** Every piece keeps at least one start in every free window that offered it one. */
  lemma GroupsSurvive(problem: SchedulingProblem, task: AcademicTask, fragmentId: nat, window: Interval)
    requires problem.Valid() && task in problem.tasks && fragmentId < |TaskPieces(problem, task)|
    requires window in FreeWindows(problem)
    requires WindowSlots(problem, task, fragmentId, TaskPieces(problem, task)[fragmentId], window, SLOT_MINUTES) != []
    ensures var earliest := WindowSlots(problem, task, fragmentId, TaskPieces(problem, task)[fragmentId], window,
                                        SLOT_MINUTES)[0];
            earliest in PostedCandidates(problem)
  {
    var scale := Scale(|FineCandidates(problem)|);
    var minutes := TaskPieces(problem, task)[fragmentId];
    ScaleCovers(|FineCandidates(problem)|);
    EarliestSurvives(problem, task, fragmentId, minutes, window, scale);
    var c := WindowSlots(problem, task, fragmentId, minutes, window, SLOT_MINUTES)[0];
    WindowElements(problem, task, fragmentId, minutes, window, SLOT_MINUTES * scale, c);
    CandidateElements(problem, FreeWindows(problem), SLOT_MINUTES * scale, c);
  }

  // ----- No fixed bound: one-slot windows keep every candidate at any grid

  function OneSlotWindow(day: nat): Interval {
    Interval(day * DAY + 8 * HOUR, day * DAY + 8 * HOUR + SLOT)
  }

  function OneSlotWindows(n: nat): seq<Interval> {
    if n == 0 then [] else OneSlotWindows(n - 1) + [OneSlotWindow(n - 1)]
  }

  function QuarterHourTask(n: nat): AcademicTask {
    AcademicTask("t", "T", n * DAY, 15, 3)
  }

  function ManyDays(n: nat): SchedulingProblem {
    SchedulingProblem([QuarterHourTask(n)], OneSlotWindows(n), [],
                      SchedulingPreference(8 * HOUR, 9 * HOUR, 15, 15, 0, true, AnyPeriod), [], 0)
  }

  lemma {:induction false} OneSlotWindowsValid(n: nat)
    ensures |OneSlotWindows(n)| == n
    ensures forall w :: w in OneSlotWindows(n) ==> w.start < w.end
  {
    if 0 < n {
      OneSlotWindowsValid(n - 1);
    }
  }

  lemma OneSlotWindowAligned(day: nat)
    ensures Aligned(OneSlotWindow(day).start) && Aligned(OneSlotWindow(day).end)
    ensures Midnight(OneSlotWindow(day).start) == day * DAY == Midnight(OneSlotWindow(day).end)
  {
    MultipleIsAligned(day * 96 + 32);
    MultipleIsAligned(day * 96 + 33);
    assert (day * 96 + 32) * SLOT == day * DAY + 8 * HOUR;
    assert (day * 96 + 33) * SLOT == day * DAY + 8 * HOUR + SLOT;
    QuotientIs(day * DAY + 8 * HOUR, DAY, day, 8 * HOUR);
    QuotientIs(day * DAY + 8 * HOUR + SLOT, DAY, day, 8 * HOUR + SLOT);
  }

  lemma AlignedRoundsToItself(moment: int)
    requires Aligned(moment)
    ensures CeilToSlot(moment) == moment && FloorToSlot(moment) == moment
  {
    CeilIsLeastBoundary(moment);
    FloorIsGreatestBoundary(moment);
  }

  lemma OneSlotWindowClipped(n: nat, day: nat)
    ensures ClipWindow(OneSlotWindow(day), ManyDays(n).preferences) == [OneSlotWindow(day)]
  {
    var window := OneSlotWindow(day);
    var preferences := ManyDays(n).preferences;
    OneSlotWindowAligned(day);
    AlignedRoundsToItself(window.start);
    AlignedRoundsToItself(window.end);
    assert Max(window.start, day * DAY + preferences.earliest) == window.start;
    assert Min(window.end, day * DAY + preferences.latest) == window.end;
    assert ClipDay(window, preferences, day * DAY) == [window];
    assert ClipDays(window, preferences, day * DAY + DAY, day * DAY) == [];
  }

  lemma {:induction false} OneSlotWindowsFree(n: nat, total: nat)
    ensures Clipped(OneSlotWindows(n), ManyDays(total).preferences) == OneSlotWindows(n)
    ensures ClipAll(OneSlotWindows(n), ManyDays(total).preferences) == OneSlotWindows(n)
  {
    if 0 < n {
      OneSlotWindowsFree(n - 1, total);
      OneSlotWindowClipped(total, n - 1);
      assert OneSlotWindows(n)[..n - 1] == OneSlotWindows(n - 1) by {
        OneSlotWindowsValid(n - 1);
      }
      OneSlotWindowsValid(n);
    }
  }

  lemma OneStartInOneSlot(total: nat, day: nat, step: int)
    requires day < total && 0 < step
    ensures |WindowSlots(ManyDays(total), QuarterHourTask(total), 0, 15, OneSlotWindow(day), step)| == 1
  {
    var problem, task, window := ManyDays(total), QuarterHourTask(total), OneSlotWindow(day);
    OneSlotWindowAligned(day);
    AlignedRoundsToItself(window.start);
    assert 0 <= day * DAY && day * DAY + DAY <= total * DAY;
    assert FirstStart(problem, window) == window.start;
    assert LatestStart(task, 15, window) == window.start;
    RunLength(problem, task, 0, 15, window.start, window.start, step);
    QuotientIs(0, step * MINUTE, 0, 0);
  }

  lemma {:induction false} OneSlotPerWindow(total: nat, n: nat, step: int)
    requires n <= total && 0 < step
    ensures |FragmentSlots(ManyDays(total), QuarterHourTask(total), 0, 15, OneSlotWindows(n), step)| == n
  {
    if 0 < n {
      OneSlotPerWindow(total, n - 1, step);
      OneSlotWindowsValid(n - 1);
      OneStartInOneSlot(total, n - 1, step);
      assert OneSlotWindows(n)[..n - 1] == OneSlotWindows(n - 1);
    }
  }

  /** Coarsening guarantees no fixed bound: for every n above 4000 some valid problem still has n
      candidates after it. */
  lemma CoarseningHasNoFixedBound(n: nat)
    requires MAX_CANDIDATES < n
    ensures ManyDays(n).Valid()
    ensures MAX_CANDIDATES < |FineCandidates(ManyDays(n))| && |PostedCandidates(ManyDays(n))| == n
  {
    var problem := ManyDays(n);
    var task := QuarterHourTask(n);
    var free := FreeWindows(problem);
    OneSlotWindowsValid(n);
    OneSlotWindowsFree(n, n);
    assert free == OneSlotWindows(n);
    assert Chunks(15, 15) == [15];
    assert TaskPieces(problem, task) == [15];
    assert VisitOrder(problem.tasks) == [task] by {
      assert Sort<AcademicTask>([], NotAfter) == [];
    }
    var scale := Scale(|FineCandidates(problem)|);
    ScaleCovers(|FineCandidates(problem)|);
    OneSlotPerWindow(n, n, SLOT_MINUTES);
    OneSlotPerWindow(n, n, SLOT_MINUTES * scale);
    SingleTaskSlots(problem, task, 15, free, SLOT_MINUTES);
    SingleTaskSlots(problem, task, 15, free, SLOT_MINUTES * scale);
  }

  lemma SingleTaskSlots(problem: SchedulingProblem, task: AcademicTask, minutes: int, free: seq<Interval>, step: int)
    requires problem.preferences.Valid() && 0 < step
    requires TaskPieces(problem, task) == [minutes]
    ensures SlotsOfTasks(problem, [task], free, step) == FragmentSlots(problem, task, 0, minutes, free, step)
  {
    assert SlotsOfTasks(problem, [], free, step) == [];
    assert [task][..0] == [];
    assert TaskSlots(problem, task, [], free, step) == [];
    assert [minutes][..0] == [];
    assert TaskSlots(problem, task, [minutes], free, step) == FragmentSlots(problem, task, 0, minutes, free, step);
  }
}
