/** The states of a workflow run and the table of permitted changes. */
module WorkflowStates {
  import opened Wrappers

  datatype Status =
    | Draft | Analyzing | PlanReady | AwaitingApproval | Approved | Queued | Executing
    | Completed | PartiallyCompleted | Failed | Rejected | Cancelled

  datatype Error =
    | InvalidWorkflowTransition | ApprovalRequired | ApprovalNotFound | ApprovalAlreadyResolved
    | ApprovalPayloadMismatch | LearnWorkflowInvalidState | RuntimeFailure | NothingToResume

  function Targets(status: Status): set<Status> {
    match status
    case Draft => {Analyzing, Cancelled}
    case Analyzing => {PlanReady, Failed, Cancelled}
    case PlanReady => {AwaitingApproval, Cancelled}
    case AwaitingApproval => {Approved, Rejected, Cancelled}
    case Approved => {Queued, Cancelled}
    case Queued => {Executing, Cancelled, Failed}
    case Executing => {Completed, PartiallyCompleted, Failed, Cancelled}
    case _ => {}
  }

  predicate Terminal(status: Status) {
    status in {Completed, PartiallyCompleted, Failed, Rejected, Cancelled}
  }

  datatype Transition = Transition(previous: Status, current: Status, updatedAt: int,
                                   startedAt: Option<int>, completedAt: Option<int>)

  function Change(current: Status, target: Status, startedAt: Option<int>, now: int): Result<Transition, Error> {
    if target !in Targets(current) then Err(InvalidWorkflowTransition)
    else Ok(Transition(current, target, now,
                       if target == Analyzing then Some(now) else startedAt,
                       if Terminal(target) then Some(now) else None))
  }

  const MAX_CHANGES := 7

  /** How far along a run is: no run changes state more than MAX_CHANGES times. */
  function Rank(status: Status): nat {
    match status
    case Draft => 0
    case Analyzing => 1
    case PlanReady => 2
    case AwaitingApproval => 3
    case Approved => 4
    case Queued => 5
    case Executing => 6
    case _ => MAX_CHANGES
  }

  /** A path through the table. */
  predicate Path(states: seq<Status>) {
    |states| >= 2 ==>
      && Path(states[..|states| - 1])
      && states[|states| - 1] in Targets(states[|states| - 2])
  }

  /** Every step along a path is in the table. */
  lemma {:induction false} PathSteps(states: seq<Status>)
    requires Path(states)
    ensures forall i :: 0 <= i < |states| - 1 ==> states[i + 1] in Targets(states[i])
  {
    if |states| >= 2 {
      PathSteps(states[..|states| - 1]);
    }
  }

  lemma {:induction false} PathFrom(states: seq<Status>, count: nat)
    requires count <= |states| && forall i :: 0 <= i < |states| - 1 ==> states[i + 1] in Targets(states[i])
    ensures Path(states[..count])
  {
    if count >= 2 {
      PathFrom(states, count - 1);
      assert states[..count][..count - 1] == states[..count - 1];
    }
  }

  lemma ChangeAdvances(current: Status, target: Status)
    requires target in Targets(current)
    ensures Rank(current) < Rank(target) && !Terminal(current)
  {
  }

  lemma {:induction false} PathAdvances(states: seq<Status>)
    requires Path(states) && states != []
    ensures Rank(states[0]) + |states| - 1 <= Rank(states[|states| - 1])
  {
    if |states| > 1 {
      PathAdvances(states[..|states| - 1]);
      ChangeAdvances(states[|states| - 2], states[|states| - 1]);
    }
  }

  lemma NoReturn(states: seq<Status>, i: nat, j: nat)
    requires i < j < |states| && forall k :: 0 <= k < |states| - 1 ==> states[k + 1] in Targets(states[k])
    ensures states[i] != states[j]
  {
    var part := states[i..j + 1];
    forall k | 0 <= k < |part| - 1
      ensures part[k + 1] in Targets(part[k])
    {
      assert part[k] == states[i + k] && part[k + 1] == states[i + k + 1];
    }
    PathFrom(part, |part|);
    assert part[..|part|] == part;
    PathAdvances(part);
  }

  /** A run changes state at most seven times, passes no state twice, and can end only in a
      terminal state: those are exactly the states the table never leaves. */
  lemma PathsAreShort(states: seq<Status>)
    requires Path(states) && states != []
    ensures |states| - 1 <= MAX_CHANGES
    ensures forall i, j :: 0 <= i < j < |states| ==> states[i] != states[j]
    ensures Targets(states[|states| - 1]) == {} <==> Terminal(states[|states| - 1])
    ensures forall i :: 0 <= i < |states| - 1 ==> !Terminal(states[i])
  {
    PathAdvances(states);
    PathSteps(states);
    forall i, j | 0 <= i < j < |states|
      ensures states[i] != states[j]
    {
      NoReturn(states, i, j);
    }
    forall i | 0 <= i < |states| - 1
      ensures !Terminal(states[i])
    {
      ChangeAdvances(states[i], states[i + 1]);
    }
    var last := states[|states| - 1];
    assert last == Draft ==> Analyzing in Targets(last);
    assert !Terminal(last) ==> Cancelled in Targets(last);
  }

  /** The bound of seven is reached. */
  lemma LongestPath()
    ensures exists states :: Path(states) && |states| == MAX_CHANGES + 1
  {
    var states := [Draft, Analyzing, PlanReady, AwaitingApproval, Approved, Queued, Executing, Completed];
    PathFrom(states, |states|);
    assert states[..|states|] == states;
  }

  // ----- All paths

  /** The way of a run on which everything goes well. */
  const LINE := [Draft, Analyzing, PlanReady, AwaitingApproval, Approved, Queued, Executing, Completed]

  /** How a run can end after its first count states on that way. */
  predicate LeavesLine(count: nat, target: Status) {
    || target == Cancelled
    || (target == Failed && count in {2, 6, 7})
    || (target == Rejected && count == 4)
    || (target == PartiallyCompleted && count == 7)
  }

  /** The states are a stretch of that way, possibly followed by another end. */
  predicate FollowsLine(states: seq<Status>) {
    || (1 <= |states| <= 8 && states == LINE[..|states|])
    || (2 <= |states| <= 8 && states[..|states| - 1] == LINE[..|states| - 1]
        && LeavesLine(|states| - 1, states[|states| - 1]))
  }

  lemma NextOnLine(count: nat, target: Status)
    requires 1 <= count <= 7
    ensures target in Targets(LINE[count - 1]) <==> target == LINE[count] || LeavesLine(count, target)
  {
  }

  /** The paths from the draft are exactly these: the first states of the one way to completion, and
      those with an early end, each end from the states that allow it. */
  lemma {:induction false} AllPaths(states: seq<Status>)
    requires states != [] && states[0] == Draft
    ensures Path(states) <==> FollowsLine(states)
  {
    if |states| >= 2 {
      var front, n := states[..|states| - 1], |states| - 1;
      AllPaths(front);
      LineExtends(states);
      if n <= 7 && front == LINE[..n] {
        assert front[n - 1] == LINE[n - 1];
        NextOnLine(n, states[n]);
      } else if FollowsLine(front) {
        EndsAreFinal(front);
      }
    }
  }

  lemma LineExtends(states: seq<Status>)
    requires |states| >= 2
    ensures var n := |states| - 1;
      FollowsLine(states)
      <==> n <= 7 && states[..n] == LINE[..n] && (states[n] == LINE[n] || LeavesLine(n, states[n]))
  {
    var n := |states| - 1;
    assert states == states[..n] + [states[n]];
    if n <= 7 {
      assert LINE[..n + 1] == LINE[..n] + [LINE[n]];
    }
  }

  lemma EndsAreFinal(states: seq<Status>)
    requires states != [] && FollowsLine(states) && !(|states| <= 7 && states == LINE[..|states|])
    ensures Targets(states[|states| - 1]) == {}
  {
    if |states| == 8 && states == LINE[..8] {
      assert states[7] == LINE[7];
    }
  }

  /** A transition stamps the start only on entering analysis, and the completion exactly on
      entering a terminal state. */
  lemma ChangeStamps(current: Status, target: Status, startedAt: Option<int>, now: int)
    ensures Change(current, target, startedAt, now).Ok? <==> target in Targets(current)
    ensures Change(current, target, startedAt, now).Ok? ==>
      var t := Change(current, target, startedAt, now).value;
      && (t.completedAt == Some(now) <==> Targets(target) == {})
      && (t.completedAt == None <==> Targets(target) != {})
      && (current == Draft && target != Cancelled ==> t.startedAt == Some(now))
      && (current != Draft ==> t.startedAt == startedAt)
  {
    PathsAreShort([target]);
  }
}
