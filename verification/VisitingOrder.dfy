/** The order in which candidates are listed. */
module VisitingOrder {
  import opened SchedulingModels
  import opened Sorting
  import opened Candidates

  lemma {:induction false} TextsAreOrdered(a: string, b: string)
    ensures TextAtMost(a, b) || TextAtMost(b, a)
  {
    if a != [] && b != [] && a[0] == b[0] {
      TextsAreOrdered(a[1..], b[1..]);
    }
  }

  lemma {:induction false} TextOrderChains(a: string, b: string, c: string)
    requires TextAtMost(a, b) && TextAtMost(b, c)
    ensures TextAtMost(a, c)
  {
    if a != [] && b != [] && c != [] && a[0] == b[0] == c[0] {
      TextOrderChains(a[1..], b[1..], c[1..]);
    }
  }

  lemma VisitOrderIsTotal()
    ensures TotalPreorder(NotAfter)
  {
    forall a, b
      ensures NotAfter(a, b) || NotAfter(b, a)
    {
      TextsAreOrdered(a.title, b.title);
    }
    forall a, b, c | NotAfter(a, b) && NotAfter(b, c)
      ensures NotAfter(a, c)
    {
      if TextAtMost(a.title, b.title) && TextAtMost(b.title, c.title) {
        TextOrderChains(a.title, b.title, c.title);
      }
    }
  }

  /** The tasks come with the nearer deadline first, then the better priority, then the title in
      alphabetical order; the pieces of one task come in their own order. */
  predicate InOrder(c: CandidateSlot, d: CandidateSlot) {
    && c.task.deadline <= d.task.deadline
    && (c.task.deadline == d.task.deadline ==> c.task.priority <= d.task.priority)
    && (c.task.deadline == d.task.deadline && c.task.priority == d.task.priority ==>
          TextAtMost(c.task.title, d.task.title))
    && (c.task.id == d.task.id ==> c.fragmentId <= d.fragmentId)
  }

  predicate AllInOrder(slots: seq<CandidateSlot>) {
    forall i, j :: 0 <= i < j < |slots| ==> InOrder(slots[i], slots[j])
  }

  lemma ConcatInOrder(a: seq<CandidateSlot>, b: seq<CandidateSlot>)
    requires AllInOrder(a) && AllInOrder(b)
    requires forall c, d :: c in a && d in b ==> InOrder(c, d)
    ensures AllInOrder(a + b)
  {
    forall i, j | 0 <= i < j < |a + b|
      ensures InOrder((a + b)[i], (a + b)[j])
    {
      assert i < |a| ==> a[i] in a;
      assert |a| <= j ==> b[j - |a|] in b;
    }
  }

  lemma PieceInOrder(problem: SchedulingProblem, task: AcademicTask, fragmentId: nat, minutes: int,
                     free: seq<Interval>, step: int)
    requires 0 < step
    ensures AllInOrder(FragmentSlots(problem, task, fragmentId, minutes, free, step))
  {
    var slots := FragmentSlots(problem, task, fragmentId, minutes, free, step);
    TextsAreOrdered(task.title, task.title);
    forall i | 0 <= i < |slots|
      ensures slots[i].task == task && slots[i].fragmentId == fragmentId
    {
      FragmentElements(problem, task, fragmentId, minutes, free, step, slots[i]);
    }
  }

  lemma {:induction false} PiecesInOrder(problem: SchedulingProblem, task: AcademicTask, pieces: seq<int>,
                                         free: seq<Interval>, step: int)
    requires 0 < step
    ensures AllInOrder(TaskSlots(problem, task, pieces, free, step))
    decreases |pieces|
  {
    if pieces != [] {
      var last := |pieces| - 1;
      var front := TaskSlots(problem, task, pieces[..last], free, step);
      var more := FragmentSlots(problem, task, last, pieces[last], free, step);
      PiecesInOrder(problem, task, pieces[..last], free, step);
      PieceInOrder(problem, task, last, pieces[last], free, step);
      TextsAreOrdered(task.title, task.title);
      forall c, d | c in front && d in more
        ensures InOrder(c, d)
      {
        TaskElements(problem, task, pieces[..last], free, step, c);
        FragmentElements(problem, task, last, pieces[last], free, step, d);
      }
      ConcatInOrder(front, more);
    }
  }

  lemma {:induction false} TasksInOrder(problem: SchedulingProblem, tasks: seq<AcademicTask>, free: seq<Interval>,
                                        step: int)
    requires problem.preferences.Valid() && 0 < step && SortedBy(tasks, NotAfter)
    requires forall i, j :: 0 <= i < j < |tasks| ==> tasks[i].id != tasks[j].id
    ensures AllInOrder(SlotsOfTasks(problem, tasks, free, step))
    decreases |tasks|
  {
    if tasks != [] {
      var before, task := tasks[..|tasks| - 1], tasks[|tasks| - 1];
      var front := SlotsOfTasks(problem, before, free, step);
      var more := TaskSlots(problem, task, TaskPieces(problem, task), free, step);
      TasksInOrder(problem, before, free, step);
      PiecesInOrder(problem, task, TaskPieces(problem, task), free, step);
      forall c, d | c in front && d in more
        ensures InOrder(c, d)
      {
        SlotsOfTasksElements(problem, before, free, step, c);
        TaskElements(problem, task, TaskPieces(problem, task), free, step, d);
        var i :| 0 <= i < |before| && before[i] == c.task;
        assert tasks[i] == c.task && NotAfter(tasks[i], task);
      }
      ConcatInOrder(front, more);
    }
  }

  /** Candidates are listed task by task, by deadline, then priority, then title, and piece by piece. */
  lemma CandidatesInOrder(problem: SchedulingProblem, free: seq<Interval>, step: int)
    requires problem.preferences.Valid() && problem.DistinctTaskIds() && 0 < step
    ensures AllInOrder(CandidateSlots(problem, free, step))
  {
    var ordered := VisitOrder(problem.tasks);
    var distinct := (a: AcademicTask, b: AcademicTask) => a.id != b.id;
    VisitOrderIsTotal();
    SortIsSorted(problem.tasks, NotAfter);
    SortPairwise(problem.tasks, NotAfter, distinct);
    assert Pairwise(problem.tasks, distinct);
    forall i, j | 0 <= i < j < |ordered|
      ensures ordered[i].id != ordered[j].id
    {
      assert distinct(ordered[i], ordered[j]);
    }
    TasksInOrder(problem, ordered, free, step);
  }
}
