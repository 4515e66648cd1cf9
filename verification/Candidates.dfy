/** Candidate generation: every start time at which a piece of a task may be placed. */
module Candidates {
  import opened Arithmetic
  import opened Timeline
  import opened SchedulingModels
  import opened FreeTime
  import opened Decomposition
  import opened Sorting
  import opened Objectives

  datatype CandidateSlot = CandidateSlot(
    task: AcademicTask,
    start: int,
    end: int,
    fragmentId: nat,
    minutes: int,
    score: int)

  function Slot(problem: SchedulingProblem, task: AcademicTask, fragmentId: nat, minutes: int,
                start: int): CandidateSlot {
    CandidateSlot(task, start, start + minutes * MINUTE, fragmentId, minutes,
                  SlotScore(task, start, minutes, problem.preferences, problem.now))
  }

  // ----- Work still to place

  function Requirement(problem: SchedulingProblem, task: AcademicTask): int {
    Max(0, task.estimatedMinutes - MinutesFor(problem.locked, task.id))
  }

  function TaskPieces(problem: SchedulingProblem, task: AcademicTask): seq<int>
    requires problem.preferences.Valid()
  {
    Pieces(Requirement(problem, task), problem.preferences.preferredSession, problem.preferences.maximumSession)
  }

  // ----- The order in which tasks are visited

  predicate TextAtMost(a: string, b: string) {
    if a == [] then true
    else if b == [] then false
    else a[0] < b[0] || (a[0] == b[0] && TextAtMost(a[1..], b[1..]))
  }

  predicate NotAfter(a: AcademicTask, b: AcademicTask) {
    if a.deadline != b.deadline then a.deadline < b.deadline
    else if a.priority != b.priority then a.priority < b.priority
    else TextAtMost(a.title, b.title)
  }

  function VisitOrder(tasks: seq<AcademicTask>): seq<AcademicTask> {
    Sort(tasks, NotAfter)
  }

  // ----- Generation

  function FirstStart(problem: SchedulingProblem, window: Interval): int {
    CeilToSlot(Max(window.start, problem.now))
  }

  function LatestStart(task: AcademicTask, minutes: int, window: Interval): int {
    Min(window.end - minutes * MINUTE, task.deadline - minutes * MINUTE)
  }

  function Run(problem: SchedulingProblem, task: AcademicTask, fragmentId: nat, minutes: int,
               start: int, latest: int, step: int): seq<CandidateSlot>
    requires 0 < step
    decreases latest - start
  {
    if latest < start then []
    else
      [Slot(problem, task, fragmentId, minutes, start)]
      + Run(problem, task, fragmentId, minutes, start + step * MINUTE, latest, step)
  }

  function WindowSlots(problem: SchedulingProblem, task: AcademicTask, fragmentId: nat, minutes: int,
                       window: Interval, step: int): seq<CandidateSlot>
    requires 0 < step
  {
    Run(problem, task, fragmentId, minutes, FirstStart(problem, window), LatestStart(task, minutes, window), step)
  }

  function FragmentSlots(problem: SchedulingProblem, task: AcademicTask, fragmentId: nat, minutes: int,
                         free: seq<Interval>, step: int): seq<CandidateSlot>
    requires 0 < step
  {
    if free == [] then []
    else
      FragmentSlots(problem, task, fragmentId, minutes, free[..|free| - 1], step)
      + WindowSlots(problem, task, fragmentId, minutes, free[|free| - 1], step)
  }

  function TaskSlots(problem: SchedulingProblem, task: AcademicTask, pieces: seq<int>,
                     free: seq<Interval>, step: int): seq<CandidateSlot>
    requires 0 < step
  {
    if pieces == [] then []
    else
      var last := |pieces| - 1;
      TaskSlots(problem, task, pieces[..last], free, step)
      + FragmentSlots(problem, task, last, pieces[last], free, step)
  }

  function SlotsOfTasks(problem: SchedulingProblem, tasks: seq<AcademicTask>, free: seq<Interval>,
                        step: int): seq<CandidateSlot>
    requires problem.preferences.Valid() && 0 < step
  {
    if tasks == [] then []
    else
      var task := tasks[|tasks| - 1];
      SlotsOfTasks(problem, tasks[..|tasks| - 1], free, step)
      + TaskSlots(problem, task, TaskPieces(problem, task), free, step)
  }

  function CandidateSlots(problem: SchedulingProblem, free: seq<Interval>, step: int): seq<CandidateSlot>
    requires problem.preferences.Valid() && 0 < step
  {
    SlotsOfTasks(problem, VisitOrder(problem.tasks), free, step)
  }

  /** Visits tasks by deadline, priority and title, and for each piece and free window every start
      on the step grid. */
  method GenerateCandidates(problem: SchedulingProblem, free: seq<Interval>, lockedMinutes: map<string, int>, step: int)
    returns (candidates: seq<CandidateSlot>)
    requires problem.preferences.Valid() && 0 < step
    requires forall id :: MinutesOf(lockedMinutes, id) == MinutesFor(problem.locked, id)
    ensures candidates == CandidateSlots(problem, free, step)
  {
    candidates := SlotsInOrder(problem, VisitOrder(problem.tasks), free, lockedMinutes, step);
  }

  method SlotsInOrder(problem: SchedulingProblem, ordered: seq<AcademicTask>, free: seq<Interval>,
                      lockedMinutes: map<string, int>, step: int) returns (candidates: seq<CandidateSlot>)
    requires problem.preferences.Valid() && 0 < step
    requires forall id :: MinutesOf(lockedMinutes, id) == MinutesFor(problem.locked, id)
    ensures candidates == SlotsOfTasks(problem, ordered, free, step)
  {
    candidates := [];
    for i := 0 to |ordered|
      invariant candidates == SlotsOfTasks(problem, ordered[..i], free, step)
    {
      var slots := SlotsOfTask(problem, ordered[i], free, MinutesOf(lockedMinutes, ordered[i].id), step);
      candidates := candidates + slots;
      assert ordered[..i + 1][..i] == ordered[..i];
    }
    assert ordered[..|ordered|] == ordered;
  }

  method SlotsOfTask(problem: SchedulingProblem, task: AcademicTask, free: seq<Interval>, locked: int, step: int)
    returns (slots: seq<CandidateSlot>)
    requires problem.preferences.Valid() && 0 < step && locked == MinutesFor(problem.locked, task.id)
    ensures slots == TaskSlots(problem, task, TaskPieces(problem, task), free, step)
  {
    var remaining := Max(0, task.estimatedMinutes - locked);
    var pieces := DecomposeMinutes(remaining, problem.preferences.preferredSession, problem.preferences.maximumSession);
    slots := SlotsOfPieces(problem, task, pieces, free, step);
  }

  method SlotsOfPieces(problem: SchedulingProblem, task: AcademicTask, pieces: seq<int>, free: seq<Interval>, step: int)
    returns (slots: seq<CandidateSlot>)
    requires 0 < step
    ensures slots == TaskSlots(problem, task, pieces, free, step)
  {
    slots := [];
    for fragmentId := 0 to |pieces|
      invariant slots == TaskSlots(problem, task, pieces[..fragmentId], free, step)
    {
      var more := SlotsInWindows(problem, task, fragmentId, pieces[fragmentId], free, step);
      slots := slots + more;
      assert pieces[..fragmentId + 1][..fragmentId] == pieces[..fragmentId];
    }
    assert pieces[..|pieces|] == pieces;
  }

  method SlotsInWindows(problem: SchedulingProblem, task: AcademicTask, fragmentId: nat, minutes: int,
                        free: seq<Interval>, step: int) returns (slots: seq<CandidateSlot>)
    requires 0 < step
    ensures slots == FragmentSlots(problem, task, fragmentId, minutes, free, step)
  {
    slots := [];
    for w := 0 to |free|
      invariant slots == FragmentSlots(problem, task, fragmentId, minutes, free[..w], step)
    {
      var more := SlotsInWindow(problem, task, fragmentId, minutes, free[w], step);
      slots := slots + more;
      assert free[..w + 1][..w] == free[..w];
    }
    assert free[..|free|] == free;
  }

  method SlotsInWindow(problem: SchedulingProblem, task: AcademicTask, fragmentId: nat, minutes: int,
                       window: Interval, step: int) returns (slots: seq<CandidateSlot>)
    requires 0 < step
    ensures slots == WindowSlots(problem, task, fragmentId, minutes, window, step)
  {
    var latest := LatestStart(task, minutes, window);
    var start := FirstStart(problem, window);
    slots := [];
    while start <= latest
      invariant slots + Run(problem, task, fragmentId, minutes, start, latest, step)
                == WindowSlots(problem, task, fragmentId, minutes, window, step)
      decreases latest - start
    {
      slots := slots + [Slot(problem, task, fragmentId, minutes, start)];
      start := start + step * MINUTE;
    }
  }

  // ----- Which slots are generated

  predicate OnGrid(first: int, start: int, step: int)
    requires 0 < step
  {
    first <= start && (start - first) % (step * MINUTE) == 0
  }

  lemma GridStep(first: int, start: int, step: int)
    requires 0 < step
    ensures OnGrid(first, start, step) <==> start == first || OnGrid(first + step * MINUTE, start, step)
  {
    var stride := step * MINUTE;
    var offset := start - first;
    DivisionLaw(offset, stride);
    DivisionLaw(offset - stride, stride);
    if OnGrid(first, start, step) && start != first {
      assert offset == offset / stride * stride;
      assert 1 <= offset / stride;
      ProductAtLeast(offset / stride, stride);
      QuotientIs(offset - stride, stride, offset / stride - 1, 0);
    } else if OnGrid(first + stride, start, step) {
      QuotientIs(offset, stride, (offset - stride) / stride + 1, 0);
    } else if start == first {
      QuotientIs(0, stride, 0, 0);
    }
  }

  predicate InWindow(problem: SchedulingProblem, window: Interval, step: int, c: CandidateSlot)
    requires 0 < step
  {
    OnGrid(FirstStart(problem, window), c.start, step) && c.start <= LatestStart(c.task, c.minutes, window)
  }

  predicate InSomeWindow(problem: SchedulingProblem, free: seq<Interval>, step: int, c: CandidateSlot)
    requires 0 < step
  {
    exists w :: w in free && InWindow(problem, w, step, c)
  }

  lemma AppendWindow(problem: SchedulingProblem, free: seq<Interval>, w: Interval, step: int, c: CandidateSlot)
    requires 0 < step
    ensures InSomeWindow(problem, free + [w], step, c)
            <==> InSomeWindow(problem, free, step, c) || InWindow(problem, w, step, c)
  {
    assert w in free + [w];
    assert forall v :: v in free ==> v in free + [w];
  }

  lemma {:induction false} RunElements(problem: SchedulingProblem, task: AcademicTask, fragmentId: nat, minutes: int,
                                       start: int, latest: int, step: int, c: CandidateSlot)
    requires 0 < step
    ensures c in Run(problem, task, fragmentId, minutes, start, latest, step)
            <==> && c == Slot(problem, task, fragmentId, minutes, c.start)
                 && OnGrid(start, c.start, step)
                 && c.start <= latest
    decreases latest - start
  {
    if start <= latest {
      RunElements(problem, task, fragmentId, minutes, start + step * MINUTE, latest, step, c);
      GridStep(start, c.start, step);
    }
  }

  lemma WindowElements(problem: SchedulingProblem, task: AcademicTask, fragmentId: nat, minutes: int,
                       window: Interval, step: int, c: CandidateSlot)
    requires 0 < step
    ensures c in WindowSlots(problem, task, fragmentId, minutes, window, step)
            <==> c == Slot(problem, task, fragmentId, minutes, c.start) && InWindow(problem, window, step, c)
  {
    RunElements(problem, task, fragmentId, minutes, FirstStart(problem, window), LatestStart(task, minutes, window),
                step, c);
  }

  lemma {:induction false} FragmentElements(problem: SchedulingProblem, task: AcademicTask, fragmentId: nat,
                                            minutes: int,
                                            free: seq<Interval>, step: int, c: CandidateSlot)
    requires 0 < step
    ensures c in FragmentSlots(problem, task, fragmentId, minutes, free, step)
            <==> && c == Slot(problem, task, fragmentId, minutes, c.start)
                 && InSomeWindow(problem, free, step, c)
  {
    if free != [] {
      var front, last := free[..|free| - 1], free[|free| - 1];
      FragmentElements(problem, task, fragmentId, minutes, front, step, c);
      WindowElements(problem, task, fragmentId, minutes, last, step, c);
      AppendWindow(problem, front, last, step, c);
      assert free == front + [last];
    }
  }

  lemma {:induction false} TaskElements(problem: SchedulingProblem, task: AcademicTask, pieces: seq<int>,
                                        free: seq<Interval>, step: int, c: CandidateSlot)
    requires 0 < step
    ensures c in TaskSlots(problem, task, pieces, free, step)
            <==> && c.fragmentId < |pieces|
                 && c == Slot(problem, task, c.fragmentId, pieces[c.fragmentId], c.start)
                 && InSomeWindow(problem, free, step, c)
  {
    if pieces != [] {
      var last := |pieces| - 1;
      TaskElements(problem, task, pieces[..last], free, step, c);
      FragmentElements(problem, task, last, pieces[last], free, step, c);
      assert c.fragmentId < last ==> pieces[..last][c.fragmentId] == pieces[c.fragmentId];
      assert TaskSlots(problem, task, pieces, free, step)
          == TaskSlots(problem, task, pieces[..last], free, step)
             + FragmentSlots(problem, task, last, pieces[last], free, step);
    }
  }

  /** A slot is a piece of one of the tasks, placed on the grid of one of the windows. */
  predicate Generated(problem: SchedulingProblem, tasks: seq<AcademicTask>, free: seq<Interval>, step: int,
                      c: CandidateSlot)
    requires problem.preferences.Valid() && 0 < step
  {
    && c.task in tasks
    && c.fragmentId < |TaskPieces(problem, c.task)|
    && c == Slot(problem, c.task, c.fragmentId, TaskPieces(problem, c.task)[c.fragmentId], c.start)
    && InSomeWindow(problem, free, step, c)
  }

  lemma {:induction false} SlotsOfTasksElements(problem: SchedulingProblem, tasks: seq<AcademicTask>,
                                                free: seq<Interval>, step: int, c: CandidateSlot)
    requires problem.preferences.Valid() && 0 < step
    ensures c in SlotsOfTasks(problem, tasks, free, step) <==> Generated(problem, tasks, free, step, c)
  {
    if tasks != [] {
      var front, task := tasks[..|tasks| - 1], tasks[|tasks| - 1];
      SlotsOfTasksElements(problem, front, free, step, c);
      TaskElements(problem, task, TaskPieces(problem, task), free, step, c);
      assert c.task in tasks <==> c.task in front || c.task == task by {
        assert tasks == front + [task];
      }
    }
  }

  lemma CandidateElements(problem: SchedulingProblem, free: seq<Interval>, step: int, c: CandidateSlot)
    requires problem.preferences.Valid() && 0 < step
    ensures c in CandidateSlots(problem, free, step) <==> Generated(problem, problem.tasks, free, step, c)
  {
    SlotsOfTasksElements(problem, VisitOrder(problem.tasks), free, step, c);
    SortElements(problem.tasks, NotAfter);
  }

  // ----- Soundness and completeness

  /** The rules every placement must meet. */
  predicate MayPlace(problem: SchedulingProblem, task: AcademicTask, start: int, end: int) {
    && problem.now <= start
    && end <= task.deadline
    && Permitted(problem, start, end)
  }

  lemma SlotGridIsAlignment(first: int, start: int)
    requires Aligned(first)
    ensures OnGrid(first, start, SLOT_MINUTES) <==> Aligned(start) && first <= start
  {
    assert SLOT_MINUTES * MINUTE == SLOT;
    var a, b := first / SLOT, start / SLOT;
    assert first == a * SLOT;
    DivisionLaw(start, SLOT);
    DivisionLaw(start - first, SLOT);
    if Aligned(start) {
      assert start - first == (b - a) * SLOT;
      QuotientIs(start - first, SLOT, b - a, 0);
    } else if (start - first) % SLOT == 0 {
      QuotientIs(start, SLOT, a + (start - first) / SLOT, 0);
    }
  }

  lemma CoarseGridIsAligned(first: int, start: int, scale: int)
    requires Aligned(first) && 0 < scale && OnGrid(first, start, SLOT_MINUTES * scale)
    ensures OnGrid(first, start, SLOT_MINUTES)
  {
    var stride := SLOT_MINUTES * scale * MINUTE;
    DivisionLaw(start - first, stride);
    var steps := (start - first) / stride;
    assert steps * stride == (steps * scale) * SLOT;
    QuotientIs(start - first, SLOT, steps * scale, 0);
    assert SLOT_MINUTES * MINUTE == SLOT;
  }

  lemma FirstStartIsAligned(problem: SchedulingProblem, window: Interval, start: int)
    requires Aligned(window.start)
    ensures Aligned(FirstStart(problem, window))
    ensures Aligned(start) ==> (FirstStart(problem, window) <= start <==> window.start <= start && problem.now <= start)
    ensures window.start <= FirstStart(problem, window) && problem.now <= FirstStart(problem, window)
  {
    CeilIsLeastBoundary(Max(window.start, problem.now));
  }

  lemma SubBlockPermitted(problem: SchedulingProblem, start: int, end: int, outer: int)
    requires problem.preferences.Valid()
    requires start < end <= outer && Permitted(problem, start, outer)
    ensures Permitted(problem, start, end)
  {
    var w :| w in problem.windows && w.Contains(start, outer);
    assert w.Contains(start, end);
    SameDayBounds(problem.preferences, start, outer);
    SameDayBounds(problem.preferences, start, end);
  }

  /** A slot-aligned placement of a piece is generated at the 15-minute step exactly when the
      placement, rounded up to a slot boundary, breaks no rule. */
  lemma GeneratedIffPermitted(problem: SchedulingProblem, task: AcademicTask, fragmentId: nat, start: int)
    requires problem.Valid() && task in problem.tasks
    requires fragmentId < |TaskPieces(problem, task)| && 0 < TaskPieces(problem, task)[fragmentId]
    requires Aligned(start)
    ensures var minutes := TaskPieces(problem, task)[fragmentId];
            var end := start + minutes * MINUTE;
            Slot(problem, task, fragmentId, minutes, start)
              in CandidateSlots(problem, FreeWindows(problem), SLOT_MINUTES)
            <==> problem.now <= start && end <= task.deadline && Permitted(problem, start, CeilToSlot(end))
  {
    var free := FreeWindows(problem);
    var minutes := TaskPieces(problem, task)[fragmentId];
    var end := start + minutes * MINUTE;
    var c := Slot(problem, task, fragmentId, minutes, start);
    CandidateElements(problem, free, SLOT_MINUTES, c);
    CeilIsLeastBoundary(end);
    FreeWindowsArePermitted(problem, start, CeilToSlot(end));
    FreeWindowsShape(problem);
    forall w | w in free
      ensures InWindow(problem, w, SLOT_MINUTES, c)
              <==> problem.now <= start && end <= task.deadline && w.Contains(start, CeilToSlot(end))
    {
      FirstStartIsAligned(problem, w, start);
      SlotGridIsAlignment(FirstStart(problem, w), start);
      assert end <= w.end <==> CeilToSlot(end) <= w.end;
    }
    if Fits(free, start, CeilToSlot(end)) && problem.now <= start && end <= task.deadline {
      var w :| w in free && w.Contains(start, CeilToSlot(end));
      assert InWindow(problem, w, SLOT_MINUTES, c);
    }
  }

  /** Every slot, coarse or fine, lies after now, before its deadline, in availability and study
      hours, and off busy and locked time. */
  lemma CandidatesAreSound(problem: SchedulingProblem, scale: int, c: CandidateSlot)
    requires problem.Valid() && 0 < scale
    requires c in CandidateSlots(problem, FreeWindows(problem), SLOT_MINUTES * scale) && 0 < c.minutes
    ensures MayPlace(problem, c.task, c.start, c.end)
    ensures Aligned(c.start) && c.task in problem.tasks && c.end == c.start + c.minutes * MINUTE
    ensures c.fragmentId < |TaskPieces(problem, c.task)| && c.minutes == TaskPieces(problem, c.task)[c.fragmentId]
    ensures c in CandidateSlots(problem, FreeWindows(problem), SLOT_MINUTES)
  {
    CoarseSlotIsFine(problem, scale, c);
    CandidateElements(problem, FreeWindows(problem), SLOT_MINUTES, c);
    GeneratedIffPermitted(problem, c.task, c.fragmentId, c.start);
    CeilIsLeastBoundary(c.end);
    SubBlockPermitted(problem, c.start, c.end, CeilToSlot(c.end));
  }

  lemma CoarseSlotIsFine(problem: SchedulingProblem, scale: int, c: CandidateSlot)
    requires problem.Valid() && 0 < scale
    requires c in CandidateSlots(problem, FreeWindows(problem), SLOT_MINUTES * scale)
    ensures c in CandidateSlots(problem, FreeWindows(problem), SLOT_MINUTES)
    ensures Aligned(c.start)
  {
    var free := FreeWindows(problem);
    CandidateElements(problem, free, SLOT_MINUTES * scale, c);
    var w :| w in free && InWindow(problem, w, SLOT_MINUTES * scale, c);
    FreeWindowsShape(problem);
    FirstStartIsAligned(problem, w, c.start);
    CoarseGridIsAligned(FirstStart(problem, w), c.start, scale);
    SlotGridIsAlignment(FirstStart(problem, w), c.start);
    assert InWindow(problem, w, SLOT_MINUTES, c);
    CandidateElements(problem, free, SLOT_MINUTES, c);
  }

  /** Every piece of every task is positive and within the maximum session. */
  predicate UsablePieces(problem: SchedulingProblem)
    requires problem.preferences.Valid()
  {
    forall t :: t in problem.tasks ==> Usable(TaskPieces(problem, t), problem.preferences.maximumSession)
  }

  /** Remaining minutes that split into usable pieces: the maximum is at least a slot, or there is
      nothing left or one piece, or the last two can merge. */
  predicate SplitsWell(total: int, preferred: int, maximum: int)
    requires 0 < preferred && 0 < maximum
  {
    var target := Min(preferred, maximum);
    total <= 0 || SLOT_MINUTES <= maximum || total <= target || target + LastChunk(total, target) <= maximum
  }

  /** Which problems have usable pieces, from the numbers alone; a maximum session of at least one
      slot is always enough. */
  lemma UsablePiecesIff(problem: SchedulingProblem)
    requires problem.Valid()
    ensures UsablePieces(problem)
            <==> forall t :: t in problem.tasks ==>
                   SplitsWell(Requirement(problem, t), problem.preferences.preferredSession,
                              problem.preferences.maximumSession)
    ensures SLOT_MINUTES <= problem.preferences.maximumSession ==> UsablePieces(problem)
  {
    var p := problem.preferences;
    forall t | t in problem.tasks
      ensures Usable(TaskPieces(problem, t), p.maximumSession)
              <==> SplitsWell(Requirement(problem, t), p.preferredSession, p.maximumSession)
    {
      if 0 < Requirement(problem, t) {
        PiecesUsableIff(Requirement(problem, t), p.preferredSession, p.maximumSession);
      }
    }
  }

  /** With usable pieces every candidate is positive and within the maximum session. */
  lemma CandidateMinutes(problem: SchedulingProblem, free: seq<Interval>, step: int, c: CandidateSlot)
    requires problem.Valid() && 0 < step && UsablePieces(problem)
    requires c in CandidateSlots(problem, free, step)
    ensures 0 < c.minutes <= problem.preferences.maximumSession
  {
    CandidateElements(problem, free, step, c);
  }
}
