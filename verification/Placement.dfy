/** Which selections can take one more piece, and what an optimal plan leaves no room for. */
module Placement {
  import opened Timeline
  import opened SchedulingModels
  import opened Sorting
  import opened LinearSums
  import opened Decomposition
  import opened FreeTime
  import opened Candidates
  import opened Coarsening
  import opened ConstraintModel
  import opened Optimality

  // ----- The minutes of the pieces that are placed

  function MinutesIn(pieces: seq<int>, used: set<nat>): int {
    if pieces == [] then 0
    else
      var last := |pieces| - 1;
      MinutesIn(pieces[..last], used) + if last in used then pieces[last] else 0
  }

  lemma {:induction false} MinutesOutside(pieces: seq<int>, used: set<nat>, piece: nat)
    requires |pieces| <= piece
    ensures MinutesIn(pieces, used + {piece}) == MinutesIn(pieces, used)
  {
    if pieces != [] {
      MinutesOutside(pieces[..|pieces| - 1], used, piece);
    }
  }

  lemma {:induction false} OneMorePiece(pieces: seq<int>, used: set<nat>, piece: nat)
    requires piece < |pieces| && piece !in used
    ensures MinutesIn(pieces, used + {piece}) == MinutesIn(pieces, used) + pieces[piece]
  {
    var last := |pieces| - 1;
    if piece == last {
      MinutesOutside(pieces[..last], used, piece);
    } else {
      OneMorePiece(pieces[..last], used, piece);
    }
  }

  lemma {:induction false} NoMoreThanAll(pieces: seq<int>, used: set<nat>)
    requires forall i :: 0 <= i < |pieces| ==> 0 < pieces[i]
    ensures MinutesIn(pieces, used) <= SumOf(pieces, Minutes)
  {
    if pieces != [] {
      NoMoreThanAll(pieces[..|pieces| - 1], used);
    }
  }

  lemma {:induction false} NoneUsed(pieces: seq<int>)
    ensures MinutesIn(pieces, {}) == 0
  {
    if pieces != [] {
      NoneUsed(pieces[..|pieces| - 1]);
    }
  }

  /** The candidates of a task are placements of its pieces. */
  predicate Places(candidates: seq<CandidateSlot>, taskId: string, pieces: seq<int>) {
    forall c :: c in candidates && c.task.id == taskId ==>
      c.fragmentId < |pieces| && c.minutes == pieces[c.fragmentId]
  }

  function UsedPieces(candidates: seq<CandidateSlot>, chosen: seq<bool>, taskId: string): set<nat>
    requires |candidates| == |chosen|
  {
    set i | 0 <= i < |chosen| && chosen[i] && candidates[i].task.id == taskId :: candidates[i].fragmentId
  }

  lemma UsedGrows(candidates: seq<CandidateSlot>, chosen: seq<bool>, taskId: string)
    requires |candidates| == |chosen| && chosen != []
    ensures var last := |chosen| - 1;
      UsedPieces(candidates, chosen, taskId)
      == UsedPieces(candidates[..last], chosen[..last], taskId)
         + if chosen[last] && candidates[last].task.id == taskId then {candidates[last].fragmentId} else {}
  {
    var last := |chosen| - 1;
    var before := UsedPieces(candidates[..last], chosen[..last], taskId);
    forall i | 0 <= i < last && chosen[i] && candidates[i].task.id == taskId
      ensures candidates[i].fragmentId in before
    {
      assert chosen[..last][i] && candidates[..last][i] == candidates[i];
    }
    forall piece | piece in before
      ensures piece in UsedPieces(candidates, chosen, taskId)
    {
      var i :| 0 <= i < last && chosen[..last][i] && candidates[..last][i].task.id == taskId
        && candidates[..last][i].fragmentId == piece;
      assert chosen[i] && candidates[i].fragmentId == piece;
    }
  }

  /** With one placement a piece, the chosen minutes of a task are those of the pieces it uses. */
  lemma {:induction false} ChosenPieces(candidates: seq<CandidateSlot>, chosen: seq<bool>, taskId: string,
                                        pieces: seq<int>)
    requires |candidates| == |chosen| && OnePerFragment(candidates, chosen) && Places(candidates, taskId, pieces)
    ensures Dot(TaskMinutes(candidates, taskId), chosen) == MinutesIn(pieces, UsedPieces(candidates, chosen, taskId))
  {
    if chosen == [] {
      NoneUsed(pieces);
      assert UsedPieces(candidates, chosen, taskId) == {};
    } else {
      var last := |chosen| - 1;
      var used := UsedPieces(candidates[..last], chosen[..last], taskId);
      assert forall c :: c in candidates[..last] ==> c in candidates;
      ChosenPieces(candidates[..last], chosen[..last], taskId, pieces);
      UsedGrows(candidates, chosen, taskId);
      assert TaskMinutes(candidates, taskId)[..last] == TaskMinutes(candidates[..last], taskId);
      if chosen[last] && candidates[last].task.id == taskId {
        assert candidates[last] in candidates;
        FreshPiece(candidates, chosen, taskId);
        OneMorePiece(pieces, used, candidates[last].fragmentId);
      } else {
        assert used + {} == used;
      }
    }
  }

  lemma FreshPiece(candidates: seq<CandidateSlot>, chosen: seq<bool>, taskId: string)
    requires |candidates| == |chosen| && chosen != [] && OnePerFragment(candidates, chosen)
    requires chosen[|chosen| - 1] && candidates[|chosen| - 1].task.id == taskId
    ensures var last := |chosen| - 1;
      candidates[last].fragmentId !in UsedPieces(candidates[..last], chosen[..last], taskId)
  {
    var last := |chosen| - 1;
    forall i | 0 <= i < last && chosen[..last][i] && candidates[..last][i].task.id == taskId
      ensures candidates[..last][i].fragmentId != candidates[last].fragmentId
    {
      assert chosen[i] && candidates[..last][i] == candidates[i];
      assert !SameFragment(candidates[i], candidates[last]);
    }
  }

  // ----- The limit on a task's minutes never binds

  lemma PostedPlaces(problem: SchedulingProblem, task: AcademicTask)
    requires problem.Valid() && problem.DistinctTaskIds() && task in problem.tasks
    ensures Places(PostedCandidates(problem), task.id, TaskPieces(problem, task))
  {
    var scale := Scale(|FineCandidates(problem)|);
    ScaleCovers(|FineCandidates(problem)|);
    forall c | c in PostedCandidates(problem) && c.task.id == task.id
      ensures c.fragmentId < |TaskPieces(problem, task)| && c.minutes == TaskPieces(problem, task)[c.fragmentId]
    {
      CandidateElements(problem, FreeWindows(problem), SLOT_MINUTES * scale, c);
      SameTask(problem, c.task, task);
    }
  }

  lemma SameTask(problem: SchedulingProblem, a: AcademicTask, b: AcademicTask)
    requires problem.DistinctTaskIds() && a in problem.tasks && b in problem.tasks && a.id == b.id
    ensures a == b
  {
    var i :| 0 <= i < |problem.tasks| && problem.tasks[i] == a;
    var j :| 0 <= j < |problem.tasks| && problem.tasks[j] == b;
    assert i == j;
  }

  lemma PiecesWithinRequirement(problem: SchedulingProblem, task: AcademicTask, used: set<nat>)
    requires problem.Valid() && UsablePieces(problem) && task in problem.tasks
    ensures MinutesIn(TaskPieces(problem, task), used) <= Requirement(problem, task)
  {
    var p, total := problem.preferences, Requirement(problem, task);
    NoMoreThanAll(TaskPieces(problem, task), used);
    if 0 < total {
      PiecesAddUp(total, p.preferredSession, p.maximumSession);
    }
  }

  /** A selection with one placement a piece stays within every task's requirement by itself: the
      selections of the model are those that keep breaks and place each piece at most once. */
  lemma RequirementsFollow(problem: SchedulingProblem, chosen: seq<bool>)
    requires problem.Valid() && problem.DistinctTaskIds() && UsablePieces(problem)
    requires |chosen| == |PostedCandidates(problem)|
    ensures var candidates := PostedCandidates(problem);
      Feasible(problem, candidates, chosen)
      <==> RespectsBreaks(candidates, problem.preferences.BreakTicks(), chosen) && OnePerFragment(candidates, chosen)
  {
    var candidates := PostedCandidates(problem);
    if OnePerFragment(candidates, chosen) {
      forall t | t in problem.tasks
        ensures Dot(TaskMinutes(candidates, t.id), chosen) <= Requirement(problem, t)
      {
        PostedPlaces(problem, t);
        ChosenPieces(candidates, chosen, t.id, TaskPieces(problem, t));
        PiecesWithinRequirement(problem, t, UsedPieces(candidates, chosen, t.id));
      }
    }
  }

  function OnlyAt(n: nat, k: nat): seq<bool> {
    seq(n, i requires 0 <= i < n => i == k)
  }

  /** Every candidate can be chosen by itself. */
  lemma AnyCandidateAlone(problem: SchedulingProblem, k: nat)
    requires problem.Valid() && problem.DistinctTaskIds() && UsablePieces(problem)
    requires k < |PostedCandidates(problem)|
    ensures Feasible(problem, PostedCandidates(problem), OnlyAt(|PostedCandidates(problem)|, k))
  {
    RequirementsFollow(problem, OnlyAt(|PostedCandidates(problem)|, k));
  }

  // ----- What an optimal plan leaves no room for

  /** The piece is not placed by the selection. */
  predicate Unplaced(candidates: seq<CandidateSlot>, chosen: seq<bool>, task: AcademicTask, piece: nat)
    requires |candidates| == |chosen|
  {
    forall i :: 0 <= i < |chosen| && chosen[i]
      ==> !(candidates[i].task.id == task.id && candidates[i].fragmentId == piece)
  }

  /** The span keeps the break from every chosen session. */
  predicate ClearOfChosen(candidates: seq<CandidateSlot>, chosen: seq<bool>, start: int, end: int, gap: int)
    requires |candidates| == |chosen|
  {
    forall i :: 0 <= i < |chosen| && chosen[i] ==> Separated(candidates[i].start, candidates[i].end, start, end, gap)
  }

  lemma PostedSpans(problem: SchedulingProblem)
    requires problem.Valid() && UsablePieces(problem)
    ensures forall c :: c in PostedCandidates(problem) ==> c.start < c.end && 0 < c.minutes
  {
    var scale := Scale(|FineCandidates(problem)|);
    ScaleCovers(|FineCandidates(problem)|);
    forall c | c in PostedCandidates(problem)
      ensures c.start < c.end && 0 < c.minutes
    {
      CandidateMinutes(problem, FreeWindows(problem), SLOT_MINUTES * scale, c);
      CandidatesAreSound(problem, scale, c);
    }
  }

  lemma ClearSlotCanJoin(problem: SchedulingProblem, chosen: seq<bool>, k: nat)
    requires problem.Valid() && problem.DistinctTaskIds() && UsablePieces(problem)
    requires Feasible(problem, PostedCandidates(problem), chosen) && k < |chosen| && !chosen[k]
    requires var c := PostedCandidates(problem)[k];
      && Unplaced(PostedCandidates(problem), chosen, c.task, c.fragmentId)
      && ClearOfChosen(PostedCandidates(problem), chosen, c.start, c.end, problem.preferences.BreakTicks())
    ensures Feasible(problem, PostedCandidates(problem), chosen[k := true])
  {
    var candidates, gap := PostedCandidates(problem), problem.preferences.BreakTicks();
    var more := chosen[k := true];
    PostedSpans(problem);
    forall i, j | 0 <= i < j < |more| && more[i] && more[j]
      ensures !TooClose(candidates[i], candidates[j], gap) && !SameFragment(candidates[i], candidates[j])
    {
      assert candidates[i] in candidates && candidates[j] in candidates;
      if i == k || j == k {
        BreaksMeanSeparation(candidates[i], candidates[j], gap);
      }
    }
    RequirementsFollow(problem, more);
  }

  /** An optimal selection has taken the room of every worthwhile slot of an unplaced piece. */
  lemma RoomIsTaken(problem: SchedulingProblem, chosen: seq<bool>, values: seq<int>, k: nat)
    requires problem.Valid() && problem.DistinctTaskIds() && UsablePieces(problem)
    requires Optimal(problem, PostedCandidates(problem), chosen, values) && k < |PostedCandidates(problem)|
    requires var c := PostedCandidates(problem)[k];
      && Unplaced(PostedCandidates(problem), chosen, c.task, c.fragmentId)
      && 5 <= c.minutes && c.start < problem.now + 48_600 * MINUTE
    ensures var c := PostedCandidates(problem)[k];
      !ClearOfChosen(PostedCandidates(problem), chosen, c.start, c.end, problem.preferences.BreakTicks())
  {
    PostedCandidatesProper(problem);
    var candidates := PostedCandidates(problem);
    assert candidates[k] in candidates && WorthTaking(problem, candidates[k]);
    if ClearOfChosen(candidates, chosen, candidates[k].start, candidates[k].end, problem.preferences.BreakTicks()) {
      ClearSlotCanJoin(problem, chosen, k);
      AddingImproves(problem, candidates, chosen, values, k);
      assert false;
    }
  }

  /** In an optimal plan on the fine grid, a piece of at least five minutes that was left out has
      nowhere to go: no aligned start within the next 48,600 minutes gives it a placement that is
      permitted, meets the deadline and keeps the break from every chosen session. */
  lemma OptimalLeavesNoRoom(problem: SchedulingProblem, chosen: seq<bool>, values: seq<int>,
                            task: AcademicTask, piece: nat, start: int)
    requires problem.Valid() && problem.DistinctTaskIds() && UsablePieces(problem)
    requires |FineCandidates(problem)| <= MAX_CANDIDATES
    requires Optimal(problem, PostedCandidates(problem), chosen, values)
    requires task in problem.tasks && piece < |TaskPieces(problem, task)| && 5 <= TaskPieces(problem, task)[piece]
    requires Unplaced(PostedCandidates(problem), chosen, task, piece)
    requires Aligned(start) && problem.now <= start < problem.now + 48_600 * MINUTE
    ensures var end := start + TaskPieces(problem, task)[piece] * MINUTE;
      end <= task.deadline && Permitted(problem, start, CeilToSlot(end))
      ==> !ClearOfChosen(PostedCandidates(problem), chosen, start, end, problem.preferences.BreakTicks())
  {
    var c := Slot(problem, task, piece, TaskPieces(problem, task)[piece], start);
    GeneratedIffPermitted(problem, task, piece, start);
    if c in PostedCandidates(problem) {
      var k :| 0 <= k < |PostedCandidates(problem)| && PostedCandidates(problem)[k] == c;
      RoomIsTaken(problem, chosen, values, k);
    }
  }
}
