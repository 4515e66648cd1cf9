/** What holds of a run's actions, approvals and fields after every step. */
module LearnRows {
  import opened Wrappers
  import opened WorkflowStates
  import opened AuditTrail
  import opened Payloads
  import opened LocalRuntime
  import opened LearnRun

  /** An approval beside its action. */
  predicate ApprovalOk(approval: Approval, action: Action) {
    && approval.actionId == action.id
    && match approval.status
       case Pending =>
         && approval.original == action.payload
         && approval.approved == None
         && approval.resolvedAt == None && approval.resolvedBy == None
         && Open(action)
       case Granted =>
         && approval.approved == Some(approval.original)
         && approval.resolvedAt.Some? && approval.resolvedBy.Some?
         && !Open(action) && action.status != ActionRejected
       case Declined =>
         && approval.approved == None
         && approval.resolvedAt.Some? && approval.resolvedBy.Some?
         && action.status == ActionRejected
       case Expired =>
         && approval.approved == None
         && approval.resolvedAt.Some?
  }

  predicate PairedRows(actions: seq<Action>, approvals: seq<Approval>) {
    && |approvals| == |actions|
    && forall i :: 0 <= i < |actions| ==>
         actions[i].id == i && approvals[i].id == i && ApprovalOk(approvals[i], actions[i])
  }

  /** Each action has one approval, and each approval one action. */
  predicate Paired(d: Data) {
    PairedRows(d.actions, d.approvals)
  }

  predicate SomeApproval(approvals: seq<Approval>, status: ApprovalStatus) {
    exists a :: a in approvals && a.status == status
  }

  predicate Undecided(approvals: seq<Approval>) {
    && SomeApproval(approvals, Pending)
    && forall a :: a in approvals ==> a.status in {Pending, Granted}
  }

  /** The decisions that go with a state. */
  predicate DecisionsOk(d: Data) {
    match d.run.status
    case Draft => d.actions == [] && d.document == NotParsed && d.run.plan == NoPlan
    case Analyzing => d.actions == []
    case AwaitingApproval => Undecided(d.approvals)
    case Approved => d.actions != [] && AllApprovals(d.approvals, Granted)
    case Queued => Executable(d)
    case Executing => Executable(d)
    case Completed => Executable(d)
    case Failed => d.actions == [] || Executable(d)
    case Rejected => !SomeApproval(d.approvals, Pending) && SomeApproval(d.approvals, Declined)
    case Cancelled => true
    case PlanReady => false
    case PartiallyCompleted => false
  }

  /** The fields of the run that go with a state. */
  predicate FieldsOk(d: Data) {
    && (d.artifact.Some? <==> d.run.status == Completed)
    && (d.artifact.Some? ==> d.artifact.value.key == LearnKey(d.id, 0))
    && (d.run.completedAt.Some? <==> Terminal(d.run.status))
    && (d.run.startedAt.None? ==> d.run.status in {Draft, Cancelled})
    && (d.run.executionId.Some? ==> d.run.status in {Executing, Completed, Failed, Cancelled})
    && (d.run.errorCode.Some? && d.run.errorCode.value.Recoverable?
      ==> d.run.status == Executing || Terminal(d.run.status))
  }

  predicate RowsOk(d: Data) {
    Paired(d) && DecisionsOk(d) && FieldsOk(d)
  }

  // ----- Planning

  lemma AnalysisKeeps(d: Data, clock: Clock)
    requires RowsOk(d)
    ensures RowsOk(AnalysisStarted(d, clock).data)
  {
  }

  lemma FailureKeeps(d: Data, code: Code, clock: Clock)
    requires RowsOk(d)
    ensures RowsOk(ParsingFailed(d, code, clock).data)
    ensures RowsOk(SummaryFailed(d, code, clock).data)
  {
  }

  lemma ProgressKeeps(d: Data, clock: Clock)
    requires RowsOk(d)
    ensures RowsOk(DocumentParsed(d, clock).data)
    ensures RowsOk(SummaryClaimed(d, clock).data)
  {
  }

  function NewActions(proposals: seq<Proposal>): seq<Action> {
    seq(|proposals|,
        i requires 0 <= i < |proposals| => Action(i, proposals[i].operation, proposals[i].payload, Proposed))
  }

  lemma {:induction false} ActionsAdded(d: Data, proposals: seq<Proposal>, clock: Clock)
    requires d.actions == []
    ensures var made := WithActions(d, proposals, clock);
      made == d.(actions := NewActions(proposals), log := made.log)
  {
    if proposals != [] {
      ActionsAdded(d, proposals[..|proposals| - 1], clock);
      assert WithActions(d, proposals, clock).actions == NewActions(proposals);
    }
  }

  function NewRequests(actions: seq<Action>): seq<Approval> {
    seq(|actions|,
        i requires 0 <= i < |actions| => Approval(i, actions[i].id, Pending, actions[i].payload, None, None, None))
  }

  lemma {:induction false} RequestsAdded(d: Data, count: nat, clock: Clock)
    requires d.approvals == [] && count <= |d.actions|
    ensures var made := WithRequests(d, count, clock);
      made == d.(approvals := NewRequests(d.actions[..count]), log := made.log)
  {
    if count != 0 {
      RequestsAdded(d, count - 1, clock);
      assert WithRequests(d, count, clock).approvals == NewRequests(d.actions[..count]);
    }
  }

  lemma PlannedKeeps(d: Data, text: string, proposals: seq<Proposal>, clock: Clock)
    requires RowsOk(d)
    ensures RowsOk(Planned(d, text, proposals, clock).data)
  {
    var summarized := Noted(d.(run := d.run.(plan := Summarized(text))), "SUMMARY_GENERATED", clock);
    var ready := Moved(summarized, PlanReady, clock);
    if ready.Ok? {
      ActionsAdded(ready.value, proposals, clock);
      RequestedKeeps(d, WithActions(ready.value, proposals, clock), clock);
    }
  }

  lemma RequestedKeeps(before: Data, d: Data, clock: Clock)
    requires RowsOk(before) && FieldsOk(d)
    requires forall i :: 0 <= i < |d.actions| ==> d.actions[i].id == i
    ensures RowsOk(Requested(before, d, clock).data)
  {
    if d.approvals == [] && d.actions != [] && forall a :: a in d.actions ==> Open(a) {
      RequestsAdded(d, |d.actions|, clock);
      assert d.actions[..|d.actions|] == d.actions;
      var made := WithRequests(d, |d.actions|, clock);
      RequestsPair(d.actions);
      AwaitingKeeps(before, made, clock);
    }
  }

  lemma RequestsPair(actions: seq<Action>)
    requires forall i :: 0 <= i < |actions| ==> actions[i].id == i && Open(actions[i])
    ensures PairedRows(actions, NewRequests(actions))
    ensures actions != [] ==> Undecided(NewRequests(actions))
  {
    if actions != [] {
      assert NewRequests(actions)[0] in NewRequests(actions);
    }
  }

  lemma AwaitingKeeps(before: Data, made: Data, clock: Clock)
    requires RowsOk(before) && FieldsOk(made) && Paired(made) && Undecided(made.approvals)
    ensures RowsOk(Ended(before, made, Moved(made, AwaitingApproval, clock)).data)
  {
  }

  // ----- Deciding

  lemma EditKeeps(d: Data, text: string, destination: Destination, expected: Payload, clock: Clock)
    requires RowsOk(d)
    ensures RowsOk(SummaryEdited(d, text, destination, expected, clock).data)
  {
    var outcome := SummaryEdited(d, text, destination, expected, clock);
    if outcome.error.None? {
      assert outcome.data.approvals[0] in outcome.data.approvals;
    }
  }

  lemma DestinationKeeps(d: Data, destination: Destination, clock: Clock)
    requires RowsOk(d)
    ensures RowsOk(DestinationUpdated(d, destination, clock).data)
  {
    var outcome := DestinationUpdated(d, destination, clock);
    if outcome.error.None? {
      assert d.approvals[0] in d.approvals;
      assert outcome.data.approvals[0] in outcome.data.approvals;
    }
  }

  lemma {:induction false} ExpiredAll(d: Data, count: nat, now: int, clock: Clock)
    requires count <= |d.approvals|
    ensures var made := WithExpired(d, count, now, clock);
      && made == d.(approvals := made.approvals, log := made.log)
      && forall i :: 0 <= i < |d.approvals| ==>
           made.approvals[i] == if i < count then ExpiredOne(d.approvals[i], now) else d.approvals[i]
  {
    if count != 0 {
      ExpiredAll(d, count - 1, now, clock);
    }
  }

  /** The decided pair is consistent and the others are untouched. */
  lemma DecidedPairs(d: Data, i: nat, approve: bool, now: int, clock: Clock)
    requires Paired(d) && i < |d.approvals| && d.approvals[i].status == Pending
    ensures Paired(Decided(d, i, i, approve, now, clock))
  {
  }

  lemma GrantedKeeps(d: Data, i: nat, now: int, clock: Clock)
    requires RowsOk(d) && d.run.status == AwaitingApproval && i < |d.approvals| && d.approvals[i].status == Pending
    ensures RowsOk(Concluded(d, Decided(d, i, i, true, now, clock), true, now, clock).data)
  {
    var decided := Decided(d, i, i, true, now, clock);
    DecidedPairs(d, i, true, now, clock);
    forall a | a in decided.approvals
      ensures a.status in {Pending, Granted}
    {
      assert a in d.approvals || a == decided.approvals[i];
    }
  }

  lemma DeclinedKeeps(d: Data, i: nat, now: int, clock: Clock)
    requires RowsOk(d) && d.run.status == AwaitingApproval && i < |d.approvals| && d.approvals[i].status == Pending
    ensures RowsOk(Concluded(d, Decided(d, i, i, false, now, clock), false, now, clock).data)
  {
    var decided := Decided(d, i, i, false, now, clock);
    DecidedPairs(d, i, false, now, clock);
    ExpiredAll(decided, |decided.approvals|, now, clock);
    var expired := WithExpired(decided, |decided.approvals|, now, clock);
    assert expired.approvals[i] in expired.approvals;
    assert Paired(expired);
  }

  lemma ResolvedKeeps(d: Data, approvalId: nat, payload: Option<Payload>, approve: bool, now: int, clock: Clock)
    requires RowsOk(d)
    ensures RowsOk(Resolved(d, approvalId, payload, approve, now, clock).data)
  {
    var i := FindApproval(d.approvals, approvalId);
    if i < |d.approvals| && d.approvals[i].status == Pending && d.run.status == AwaitingApproval {
      assert FindAction(d.actions, d.approvals[i].actionId) == i;
      if approve {
        GrantedKeeps(d, i, now, clock);
      } else {
        DeclinedKeeps(d, i, now, clock);
      }
    }
  }

  // ----- Stopping

  lemma StoppedPairs(d: Data)
    requires Paired(d)
    ensures PairedRows(WithStopped(d.actions), d.approvals)
  {
  }

  lemma CancelledKeeps(d: Data, actions: seq<Action>, at: Data, clock: Clock)
    requires RowsOk(d) && PairedRows(actions, d.approvals)
    requires at == d.(actions := actions, log := at.log)
    ensures Moved(at, Cancelled, clock).Ok? ==> RowsOk(Moved(at, Cancelled, clock).value)
  {
  }

  lemma CancelKeeps(d: Data, reply: Option<ExecutionStatus>, clock: Clock)
    requires RowsOk(d)
    ensures RowsOk(CancelledBy(d, reply, clock).data)
  {
    var asked := Noted(d, "RUNTIME_CANCEL_REQUESTED", clock);
    if d.run.executionId.None? {
      CancelledKeeps(d, d.actions, asked, clock);
    } else if reply == Some(RunCancelled) {
      StoppedPairs(d);
      CancelledKeeps(d, WithStopped(d.actions),
                     Noted(asked.(actions := WithStopped(d.actions)), "RUNTIME_CANCELLED", clock), clock);
    }
  }

  // ----- Executing

  /** The row of the action does not matter to what is decided, only its state of progress changes. */
  lemma ProgressPairs(d: Data, status: ActionStatus)
    requires Paired(d) && Executable(d)
    requires status in {ActionQueued, ActionExecuting, ActionCompleted, ActionFailed}
    ensures Paired(WithActionStatus(d, status)) && Executable(WithActionStatus(d, status))
  {
  }

  /** A run that has just been sent: everything holds of it but its artifact and outcome. */
  predicate Sending(d: Data) {
    && Paired(d) && Executable(d) && FieldsOk(d)
    && d.run.status == Executing
    && d.approvals[0].id == 0
  }

  lemma EndKeeps(d: Data, target: Status, clock: Clock)
    requires Paired(d) && Executable(d) && d.run.status == Executing && d.run.startedAt.Some?
            && target in {Cancelled, Failed, Completed}
    requires d.artifact.Some? <==> target == Completed
    requires d.artifact.Some? ==> d.artifact.value.key == LearnKey(d.id, 0)
    ensures Moved(d, target, clock).Ok? ==> RowsOk(Moved(d, target, clock).value)
  {
  }

  lemma SyncKeeps(d: Data, status: ActionStatus)
    requires Sending(d) && status in {ActionQueued, ActionExecuting}
    ensures RowsOk(WithActionStatus(d, status))
  {
    ProgressPairs(d, status);
  }

  lemma SettledKeeps(d: Data, snapshot: Snapshot, clock: Clock)
    requires Sending(d)
    ensures var (at, result) := Settled(d, LearnKey(d.id, 0), snapshot, clock);
      result.Ok? ==> RowsOk(result.value)
  {
    var known := d.(run := d.run.(executionId := Some(snapshot.id)));
    if !TerminalSnapshot(snapshot.status) {
      SyncKeeps(known, if snapshot.status == RunQueued then ActionQueued else ActionExecuting);
    } else if snapshot.status == RunCancelled {
      ProgressPairs(known, ActionFailed);
      EndKeeps(WithActionStatus(known, ActionFailed), Cancelled, clock);
    } else if snapshot.status == Succeeded && snapshot.result.Some? {
      if snapshot.result.value.Single? {
        ProgressPairs(known, ActionCompleted);
        EndKeeps(WithArtifact(known, LearnKey(d.id, 0), snapshot.result.value.external, clock), Completed, clock);
      }
    } else {
      ProgressPairs(known, ActionFailed);
      EndKeeps(WithFailure(known, snapshot, clock), Failed, clock);
    }
  }

  lemma MarkedKeeps(d: Data, reason: RecoverableError, clock: Clock)
    requires Sending(d)
    ensures RowsOk(MarkedRecoverable(d, ActionExecuting, reason, clock))
  {
  }

  lemma RolledBackKeeps(before: Data, at: Data)
    requires RowsOk(before)
    ensures RowsOk(RolledBack(before, at))
  {
  }

  lemma StartedSending(d: Data, clock: Clock)
    requires Sending(d)
    ensures Sending(SendStarted(d, clock))
  {
    ProgressPairs(d, ActionExecuting);
  }

  lemma AnsweredKeeps(before: Data, started: Data, snapshot: Snapshot, clock: Clock)
    requires RowsOk(before) && Sending(started)
    ensures var (at, settled) := Settled(started, LearnKey(started.id, 0), snapshot, clock);
      RowsOk(Ended(before, at, settled).data)
  {
    SettledKeeps(started, snapshot, clock);
    RolledBackKeeps(before, Settled(started, LearnKey(started.id, 0), snapshot, clock).0);
  }

  lemma SentKeeps(before: Data, d: Data, request: Request, runtime: Runtime, id: nat, outside: Outside,
                  delivery: Delivery, clock: Clock)
    requires RowsOk(before) && Sending(d) && request.key == LearnKey(d.id, 0)
    ensures RowsOk(Sent(before, d, request, runtime, id, outside, delivery, clock).0.data)
  {
    var started := SendStarted(d, clock);
    StartedSending(d, clock);
    var answer := Answer(runtime, request, id, outside);
    if delivery.RequestLost? || (delivery.ResponseLost? && answer.Ok?) {
      MarkedKeeps(started, delivery.reason, clock);
    } else if delivery.Broken? || answer.Err? {
      RolledBackKeeps(before, started);
    } else {
      AnsweredKeeps(before, started, Shown(answer.value, delivery), clock);
    }
  }

  lemma BegunKeeps(w: World, id: nat, outside: Outside, delivery: Delivery, clock: Clock)
    requires RowsOk(w.data)
    ensures RowsOk(ExecutionBegun(w, id, outside, delivery, clock).world.data)
  {
    var d := w.data;
    if (d.run.status == Approved || HasRecoverableError(d.run)) && Executable(d) {
      if d.run.status == Approved {
        ProgressPairs(d, ActionQueued);
      } else {
        SentKeeps(d, d, ExecutionRequest(d), w.runtime, id, outside, delivery, clock);
      }
    }
  }

  lemma ResumedKeeps(w: World, id: nat, outside: Outside, delivery: Delivery, clock: Clock)
    requires RowsOk(w.data) && forall r :: r in w.waiting ==> r.key == LearnKey(w.data.id, 0)
    ensures RowsOk(ExecutionResumed(w, id, outside, delivery, clock).world.data)
  {
    var moved := Moved(w.data, Executing, clock);
    if w.waiting != [] && moved.Ok? {
      SentKeeps(w.data, moved.value, w.waiting[0], w.runtime, id, outside, delivery, clock);
    }
  }
}
