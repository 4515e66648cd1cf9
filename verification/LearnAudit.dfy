/** Which audit rows each step adds for its run. */
module LearnAudit {
  import opened Wrappers
  import opened WorkflowStates
  import opened AuditTrail
  import opened Payloads
  import opened LocalRuntime
  import opened LearnRun
  import opened LearnLog
  import opened LearnRows
  import opened LearnProtocol
  import opened LearnTheorems
  import opened LearnOutcomes
  import opened LearnPlans

  /** The events of a run, without their timestamps. */
  function Trail(events: seq<Event>, run: nat): seq<Kind> {
    if events == [] then []
    else
      var last := events[|events| - 1];
      Trail(events[..|events| - 1], run) + if last.run == run then [last.kind] else []
  }

  function TrailOf(d: Data): seq<Kind> {
    Trail(d.log.events, d.id)
  }

  function Repeated(name: string, count: nat): seq<Kind> {
    seq(count, _ => Note(name))
  }

  lemma RecordedTrail(log: Log, run: nat, kind: Kind, clock: Clock)
    ensures Trail(Recorded(log, run, kind, clock).events, run) == Trail(log.events, run) + [kind]
  {
    RecordedFront(log, run, kind, clock);
  }

  lemma NotedTrail(d: Data, name: string, clock: Clock)
    ensures TrailOf(Noted(d, name, clock)) == TrailOf(d) + [Note(name)]
  {
    RecordedTrail(d.log, d.id, Note(name), clock);
  }

  lemma MovedTrail(d: Data, target: Status, clock: Clock)
    requires Moved(d, target, clock).Ok?
    ensures TrailOf(Moved(d, target, clock).value) == TrailOf(d) + [StateChanged(d.run.status, target)]
  {
    RecordedTrail(d.log, d.id, StateChanged(d.run.status, target), clock);
  }

  /** The step adds these rows for its run, in this order. */
  predicate Adds(d: Data, later: Data, kinds: seq<Kind>) {
    later.id == d.id && TrailOf(later) == TrailOf(d) + kinds
  }

  // ----- The analysis

  function EarlyEntries(step: Step): seq<Kind>
    requires Plans(step)
  {
    match step
    case StartAnalysis => [StateChanged(Draft, Analyzing), Note("DOCUMENT_PARSE_STARTED")]
    case FinishParsing => [Note("DOCUMENT_PARSED")]
    case FailParsing(_) => [Note("DOCUMENT_PARSE_FAILED"), StateChanged(Analyzing, Failed)]
    case ClaimSummary => [Note("SUMMARY_GENERATION_STARTED")]
    case FailSummary(_) => [Note("SUMMARY_GENERATION_FAILED"), StateChanged(Analyzing, Failed)]
  }

  lemma FailingAdds(d: Data, name: string, code: Code, clock: Clock)
    requires d.run.status == Analyzing
    ensures Failing(d, name, code, clock).error == None
    ensures Adds(d, Failing(d, name, code, clock).data, [Note(name), StateChanged(Analyzing, Failed)])
  {
    var marked := d.(run := d.run.(errorCode := Some(Permanent(code))));
    NotedTrail(marked, name, clock);
    MovedTrail(Noted(marked, name, clock), Failed, clock);
  }

  lemma AnalysisAdds(d: Data, clock: Clock)
    requires d.run.status == Draft
    ensures Adds(d, AnalysisStarted(d, clock).data, [StateChanged(Draft, Analyzing), Note("DOCUMENT_PARSE_STARTED")])
  {
    MovedTrail(d, Analyzing, clock);
    NotedTrail(Moved(d, Analyzing, clock).value, "DOCUMENT_PARSE_STARTED", clock);
  }

  lemma EarlyAdds(w: World, step: Step, clock: Clock)
    requires RowsOk(w.data) && Plans(step) && Next(w, step, clock).error == None
    ensures Adds(w.data, Next(w, step, clock).world.data, EarlyEntries(step))
  {
    var d := w.data;
    match step
    case StartAnalysis => AnalysisAdds(d, clock);
    case FinishParsing => NotedTrail(d, "DOCUMENT_PARSED", clock);
    case FailParsing(code) => FailingAdds(d.(document := ParseFailed), "DOCUMENT_PARSE_FAILED", code, clock);
    case ClaimSummary => NotedTrail(d.(run := d.run.(plan := Summarizing)), "SUMMARY_GENERATION_STARTED", clock);
    case FailSummary(code) => FailingAdds(d, "SUMMARY_GENERATION_FAILED", code, clock);
  }

  // ----- The plan

  function PlanEntries(count: nat): seq<Kind> {
    [Note("SUMMARY_GENERATED"), StateChanged(Analyzing, PlanReady)] + Repeated("PROPOSED_ACTION_CREATED", count)
    + Repeated("APPROVAL_REQUESTED", count) + [StateChanged(PlanReady, AwaitingApproval)]
  }

  lemma OneMore(name: string, count: nat)
    ensures Repeated(name, count) + [Note(name)] == Repeated(name, count + 1)
  {
  }

  lemma {:induction false} ActionsTrail(d: Data, proposals: seq<Proposal>, clock: Clock)
    ensures TrailOf(WithActions(d, proposals, clock))
            == TrailOf(d) + Repeated("PROPOSED_ACTION_CREATED", |proposals|)
  {
    if proposals != [] {
      var last := |proposals| - 1;
      var before := WithActions(d, proposals[..last], clock);
      ActionsTrail(d, proposals[..last], clock);
      NotedTrail(before.(actions := before.actions
                           + [Action(|before.actions|, proposals[last].operation, proposals[last].payload, Proposed)]),
                 "PROPOSED_ACTION_CREATED", clock);
      OneMore("PROPOSED_ACTION_CREATED", last);
    }
  }

  lemma {:induction false} RequestsTrail(d: Data, count: nat, clock: Clock)
    requires count <= |d.actions|
    ensures TrailOf(WithRequests(d, count, clock)) == TrailOf(d) + Repeated("APPROVAL_REQUESTED", count)
  {
    if count != 0 {
      var before := WithRequests(d, count - 1, clock);
      var action := d.actions[count - 1];
      RequestsTrail(d, count - 1, clock);
      NotedTrail(before.(approvals := before.approvals
                           + [Approval(|before.approvals|, action.id, Pending, action.payload, None, None, None)]),
                 "APPROVAL_REQUESTED", clock);
      OneMore("APPROVAL_REQUESTED", count - 1);
    }
  }

  lemma RequestedAdds(before: Data, d: Data, clock: Clock)
    requires d.approvals == [] && d.id == before.id && Requested(before, d, clock).error == None
    ensures Adds(d, Requested(before, d, clock).data,
                 Repeated("APPROVAL_REQUESTED", |d.actions|) + [StateChanged(PlanReady, AwaitingApproval)])
  {
    RequestsTrail(d, |d.actions|, clock);
    RequestsAdded(d, |d.actions|, clock);
    MovedTrail(WithRequests(d, |d.actions|, clock), AwaitingApproval, clock);
  }

  lemma AddsBoth(d: Data, middle: Data, later: Data, first: seq<Kind>, second: seq<Kind>)
    requires Adds(d, middle, first) && Adds(middle, later, second)
    ensures Adds(d, later, first + second)
  {
  }

  lemma ReadyAdds(d: Data, text: string, clock: Clock)
    requires d.run.status == Analyzing
    ensures var summarized := Noted(d.(run := d.run.(plan := Summarized(text))), "SUMMARY_GENERATED", clock);
      && Moved(summarized, PlanReady, clock).Ok?
      && Adds(d, Moved(summarized, PlanReady, clock).value,
              [Note("SUMMARY_GENERATED"), StateChanged(Analyzing, PlanReady)])
  {
    var chosen := d.(run := d.run.(plan := Summarized(text)));
    NotedTrail(chosen, "SUMMARY_GENERATED", clock);
    MovedTrail(Noted(chosen, "SUMMARY_GENERATED", clock), PlanReady, clock);
  }

  lemma PlannedAdds(d: Data, text: string, proposals: seq<Proposal>, clock: Clock)
    requires RowsOk(d) && Planned(d, text, proposals, clock).error == None
    ensures Adds(d, Planned(d, text, proposals, clock).data, PlanEntries(|proposals|))
  {
    ReadyAdds(d, text, clock);
    var summarized := Noted(d.(run := d.run.(plan := Summarized(text))), "SUMMARY_GENERATED", clock);
    var ready := Moved(summarized, PlanReady, clock).value;
    var proposed := WithActions(ready, proposals, clock);
    var later := Planned(d, text, proposals, clock).data;
    ActionsAdded(ready, proposals, clock);
    ActionsTrail(ready, proposals, clock);
    RequestedAdds(d, proposed, clock);
    var opening := [Note("SUMMARY_GENERATED"), StateChanged(Analyzing, PlanReady)];
    AddsBoth(d, ready, proposed, opening, Repeated("PROPOSED_ACTION_CREATED", |proposals|));
    var requests := Repeated("APPROVAL_REQUESTED", |proposals|) + [StateChanged(PlanReady, AwaitingApproval)];
    AddsBoth(d, proposed, later, opening + Repeated("PROPOSED_ACTION_CREATED", |proposals|), requests);
    assert opening + Repeated("PROPOSED_ACTION_CREATED", |proposals|) + requests == PlanEntries(|proposals|);
  }

  // ----- Decisions

  function PendingCount(approvals: seq<Approval>): nat {
    if approvals == [] then 0
    else
      PendingCount(approvals[..|approvals| - 1]) + if approvals[|approvals| - 1].status == Pending then 1 else 0
  }

  lemma {:induction false} ExpiredTrail(d: Data, count: nat, now: int, clock: Clock)
    requires count <= |d.approvals|
    ensures TrailOf(WithExpired(d, count, now, clock))
            == TrailOf(d) + Repeated("APPROVAL_EXPIRED", PendingCount(d.approvals[..count]))
  {
    if count != 0 {
      var before := WithExpired(d, count - 1, now, clock);
      ExpiredTrail(d, count - 1, now, clock);
      ExpiredAll(d, count - 1, now, clock);
      assert d.approvals[..count][..count - 1] == d.approvals[..count - 1];
      if before.approvals[count - 1].status == Pending {
        NotedTrail(before.(approvals := before.approvals[count - 1 := ExpiredOne(before.approvals[count - 1], now)]),
                   "APPROVAL_EXPIRED", clock);
        OneMore("APPROVAL_EXPIRED", PendingCount(d.approvals[..count - 1]));
      }
    }
  }

  /** One row for the decision, one for each other approval that expires, and one for the new state. */
  function DecisionEntries(d: Data, later: Data, i: nat, approve: bool): seq<Kind>
    requires i < |d.approvals| && i < |later.approvals|
  {
    if approve then
      [Note("ACTION_APPROVED")]
      + if later.run.status == Approved then [StateChanged(AwaitingApproval, Approved)] else []
    else
      [Note("ACTION_REJECTED")]
      + Repeated("APPROVAL_EXPIRED", PendingCount(d.approvals[i := later.approvals[i]]))
      + [StateChanged(AwaitingApproval, Rejected)]
  }

  lemma DecidedTrail(d: Data, i: nat, j: nat, approve: bool, now: int, clock: Clock)
    requires i < |d.approvals| && j < |d.actions|
    ensures TrailOf(Decided(d, i, j, approve, now, clock))
            == TrailOf(d) + [Note(if approve then "ACTION_APPROVED" else "ACTION_REJECTED")]
  {
    RecordedTrail(d.log, d.id, Note(if approve then "ACTION_APPROVED" else "ACTION_REJECTED"), clock);
  }

  lemma GrantingAdds(d: Data, i: nat, now: int, clock: Clock)
    requires d.run.status == AwaitingApproval && i < |d.approvals| && i < |d.actions|
    ensures var outcome := Concluded(d, Decided(d, i, i, true, now, clock), true, now, clock);
      && i < |outcome.data.approvals|
      && (outcome.error == None ==> Adds(d, outcome.data, DecisionEntries(d, outcome.data, i, true)))
  {
    var decided := Decided(d, i, i, true, now, clock);
    DecidedTrail(d, i, i, true, now, clock);
    if Moved(decided, Approved, clock).Ok? {
      MovedTrail(decided, Approved, clock);
    }
  }

  lemma RejectingAdds(d: Data, now: int, clock: Clock)
    requires d.run.status == AwaitingApproval
    ensures var expired := WithExpired(d, |d.approvals|, now, clock);
      && Moved(expired, Rejected, clock).Ok?
      && Adds(d, Moved(expired, Rejected, clock).value,
              Repeated("APPROVAL_EXPIRED", PendingCount(d.approvals)) + [StateChanged(AwaitingApproval, Rejected)])
  {
    var n := |d.approvals|;
    ExpiredTrail(d, n, now, clock);
    ExpiredAll(d, n, now, clock);
    assert d.approvals[..n] == d.approvals;
    MovedTrail(WithExpired(d, n, now, clock), Rejected, clock);
  }

  lemma DecliningAdds(d: Data, i: nat, now: int, clock: Clock)
    requires d.run.status == AwaitingApproval && i < |d.approvals| && i < |d.actions|
    ensures var outcome := Concluded(d, Decided(d, i, i, false, now, clock), false, now, clock);
      i < |outcome.data.approvals| && Adds(d, outcome.data, DecisionEntries(d, outcome.data, i, false))
  {
    var decided := Decided(d, i, i, false, now, clock);
    var later := Concluded(d, decided, false, now, clock).data;
    DecidedTrail(d, i, i, false, now, clock);
    RejectingAdds(decided, now, clock);
    ExpiredAll(decided, |decided.approvals|, now, clock);
    assert decided.approvals == d.approvals[i := later.approvals[i]];
    var expiries := Repeated("APPROVAL_EXPIRED", PendingCount(decided.approvals));
    AddsBoth(d, decided, later, [Note("ACTION_REJECTED")], expiries + [StateChanged(AwaitingApproval, Rejected)]);
    assert [Note("ACTION_REJECTED")] + (expiries + [StateChanged(AwaitingApproval, Rejected)])
        == [Note("ACTION_REJECTED")] + expiries + [StateChanged(AwaitingApproval, Rejected)];
  }

  // ----- Executions

  /** What is added when the snapshot of an execution is taken over. */
  function SettlingEntries(status: Status): seq<Kind> {
    match status
    case Executing => [Note("RUNTIME_STATUS_SYNCED")]
    case Completed =>
      [Note("EXTERNAL_ACTION_COMPLETED"), Note("NOTION_PAGE_CREATED"), Note("EXTERNAL_ARTIFACT_RECORDED"),
       StateChanged(Executing, Completed), Note("WORKFLOW_COMPLETED")]
    case Failed =>
      [Note("NOTION_PAGE_CREATE_FAILED"), Note("EXTERNAL_ACTION_FAILED"), StateChanged(Executing, Failed)]
    case _ => [StateChanged(Executing, status)]
  }

  function SendingEntries(later: Data, delivery: Delivery): seq<Kind> {
    [Note("EXTERNAL_EXECUTION_STARTED"), Note("NOTION_PAGE_CREATE_STARTED")]
    + if delivery.RequestLost? || delivery.ResponseLost? then [Note("RUNTIME_RECOVERABLE_FAILURE")]
      else SettlingEntries(later.run.status)
  }

  lemma StartedAdds(d: Data, clock: Clock)
    ensures Adds(d, SendStarted(d, clock), [Note("EXTERNAL_EXECUTION_STARTED"), Note("NOTION_PAGE_CREATE_STARTED")])
  {
    var executing := WithActionStatus(d, ActionExecuting);
    NotedTrail(executing, "EXTERNAL_EXECUTION_STARTED", clock);
    NotedTrail(Noted(executing, "EXTERNAL_EXECUTION_STARTED", clock), "NOTION_PAGE_CREATE_STARTED", clock);
  }

  lemma PublishedAdds(d: Data, key: Key, external: string, clock: Clock)
    requires d.run.status == Executing
    ensures var moved := Moved(WithArtifact(d, key, external, clock), Completed, clock);
      && moved.Ok?
      && Adds(d, Noted(moved.value, "WORKFLOW_COMPLETED", clock), SettlingEntries(Completed))
  {
    var made := WithActionStatus(d, ActionCompleted).(artifact := Some(Artifact(key, external)));
    var one := Noted(made, "EXTERNAL_ACTION_COMPLETED", clock);
    var two := Noted(one, "NOTION_PAGE_CREATED", clock);
    var three := Noted(two, "EXTERNAL_ARTIFACT_RECORDED", clock);
    NotedTrail(made, "EXTERNAL_ACTION_COMPLETED", clock);
    NotedTrail(one, "NOTION_PAGE_CREATED", clock);
    NotedTrail(two, "EXTERNAL_ARTIFACT_RECORDED", clock);
    MovedTrail(three, Completed, clock);
    NotedTrail(Moved(three, Completed, clock).value, "WORKFLOW_COMPLETED", clock);
  }

  lemma FailedAdds(d: Data, snapshot: Snapshot, clock: Clock)
    requires d.run.status == Executing
    ensures var moved := Moved(WithFailure(d, snapshot, clock), Failed, clock);
      && moved.Ok?
      && Adds(d, moved.value, SettlingEntries(Failed))
  {
    var failed := WithActionStatus(d, ActionFailed);
    var marked := failed.(run := failed.run.(errorCode := Some(Permanent(FailureCode(snapshot)))));
    var one := Noted(marked, "NOTION_PAGE_CREATE_FAILED", clock);
    NotedTrail(marked, "NOTION_PAGE_CREATE_FAILED", clock);
    NotedTrail(one, "EXTERNAL_ACTION_FAILED", clock);
    MovedTrail(Noted(one, "EXTERNAL_ACTION_FAILED", clock), Failed, clock);
  }

  lemma StoppedAdds(d: Data, clock: Clock)
    requires d.run.status == Executing
    ensures var moved := Moved(WithActionStatus(d, ActionFailed), Cancelled, clock);
      moved.Ok? && Adds(d, moved.value, SettlingEntries(Cancelled))
  {
    MovedTrail(WithActionStatus(d, ActionFailed), Cancelled, clock);
  }

  lemma SyncedAdds(d: Data, status: ExecutionStatus, clock: Clock)
    requires d.run.status == Executing && status in {RunQueued, Running} && Synced(d, status, clock).1.Ok?
    ensures Adds(d, Synced(d, status, clock).1.value, SettlingEntries(Executing))
  {
    NotedTrail(WithActionStatus(d, ActionExecuting), "RUNTIME_STATUS_SYNCED", clock);
  }

  lemma SettledAdds(d: Data, key: Key, snapshot: Snapshot, clock: Clock)
    requires d.run.status == Executing && Settled(d, key, snapshot, clock).1.Ok?
    ensures var later := Settled(d, key, snapshot, clock).1.value;
      Adds(d, later, SettlingEntries(later.run.status))
  {
    var known := d.(run := d.run.(executionId := Some(snapshot.id)));
    if !TerminalSnapshot(snapshot.status) {
      SyncedAdds(known, snapshot.status, clock);
    } else if snapshot.status == RunCancelled {
      StoppedAdds(known, clock);
    } else if snapshot.status == Succeeded && snapshot.result.Some? {
      PublishedAdds(known, key, snapshot.result.value.external, clock);
    } else {
      FailedAdds(known, snapshot, clock);
    }
  }

  lemma LostAdds(d: Data, reason: RecoverableError, clock: Clock)
    ensures Adds(d, MarkedRecoverable(d, ActionExecuting, reason, clock), [Note("RUNTIME_RECOVERABLE_FAILURE")])
  {
    NotedTrail(d.(run := d.run.(status := Executing, errorCode := Some(Recoverable(reason)))),
               "RUNTIME_RECOVERABLE_FAILURE", clock);
  }

  lemma ReceivedAdds(before: Data, started: Data, key: Key, answer: Result<Snapshot, Error>, delivery: Delivery,
                     clock: Clock)
    requires started.run.status == Executing && !delivery.RequestLost?
    requires Received(before, started, key, answer, delivery, clock).error == None
    ensures var later := Received(before, started, key, answer, delivery, clock).data;
      Adds(started, later,
           if delivery.ResponseLost? then [Note("RUNTIME_RECOVERABLE_FAILURE")] else SettlingEntries(later.run.status))
  {
    if delivery.ResponseLost? {
      LostAdds(started, delivery.reason, clock);
    } else {
      SettledAdds(started, key, Shown(answer.value, delivery), clock);
    }
  }

  lemma SentAdds(before: Data, d: Data, request: Request, runtime: Runtime, id: nat, outside: Outside,
                 delivery: Delivery, clock: Clock)
    requires d.run.status == Executing
    requires Sent(before, d, request, runtime, id, outside, delivery, clock).0.error == None
    ensures var later := Sent(before, d, request, runtime, id, outside, delivery, clock).0.data;
      Adds(d, later, SendingEntries(later, delivery))
  {
    var started := SendStarted(d, clock);
    var later := Sent(before, d, request, runtime, id, outside, delivery, clock).0.data;
    var opening := [Note("EXTERNAL_EXECUTION_STARTED"), Note("NOTION_PAGE_CREATE_STARTED")];
    StartedAdds(d, clock);
    if delivery.RequestLost? {
      LostAdds(started, delivery.reason, clock);
      AddsBoth(d, started, later, opening, [Note("RUNTIME_RECOVERABLE_FAILURE")]);
    } else {
      ReceivedAdds(before, started, request.key, Answer(runtime, request, id, outside), delivery, clock);
      AddsBoth(d, started, later, opening,
               if delivery.ResponseLost? then [Note("RUNTIME_RECOVERABLE_FAILURE")]
               else SettlingEntries(later.run.status));
    }
  }

  // ----- Every step

  /** A cancel of a run that has not ended; the runtime's word is recorded when it was needed. */
  function CancelEntries(d: Data): seq<Kind> {
    if d.run.completedAt.Some? then []
    else if d.run.executionId.None? then
      [Note("RUNTIME_CANCEL_REQUESTED"), StateChanged(d.run.status, Cancelled)]
    else
      [Note("RUNTIME_CANCEL_REQUESTED"), Note("RUNTIME_CANCELLED"), StateChanged(d.run.status, Cancelled)]
  }

  /** The rows that a step adds when it commits, by what it is and what it made of the run. */
  function Entries(w: World, step: Step, later: Data): seq<Kind>
    requires step.Resolve? ==> step.approvalId < |w.data.approvals| && step.approvalId < |later.approvals|
  {
    match step
    case FinishSummary(_, _) => PlanEntries(1)
    case FinishOtherPlan(_, proposals) => PlanEntries(|proposals|)
    case Edit(_, _, _) => [Note("ACTION_EDITED")]
    case UpdateDestination(_) => [Note("NOTION_DESTINATION_SELECTED")]
    case Resolve(approvalId, _, approve, _) => DecisionEntries(w.data, later, approvalId, approve)
    case Execute(_, _, delivery) =>
      if Sends(w, step) then SendingEntries(later, delivery)
      else if w.data.run.status == Approved then [StateChanged(Approved, Queued), Note("EXECUTION_SUBMITTED")]
      else []
    case Resume(_, _, delivery) => [StateChanged(Queued, Executing)] + SendingEntries(later, delivery)
    case Cancel(_) => CancelEntries(w.data)
    case OtherSubmission(_, _, _) => []
    case OtherEvent(_, _) => []
    case _ => EarlyEntries(step)
  }

  lemma BegunAdds(w: World, id: nat, outside: Outside, delivery: Delivery, clock: Clock)
    requires WorldOk(w)
    ensures var effect := ExecutionBegun(w, id, outside, delivery, clock);
      effect.error == None ==>
        Adds(w.data, effect.world.data, Entries(w, Execute(id, outside, delivery), effect.world.data))
  {
    var d := w.data;
    if HasRecoverableError(d.run) {
      if ExecutionBegun(w, id, outside, delivery, clock).error == None {
        SentAdds(d, d, ExecutionRequest(d), w.runtime, id, outside, delivery, clock);
      }
    } else if d.run.status == Approved {
      QueuedAdds(d, clock);
    }
  }

  lemma QueuedAdds(d: Data, clock: Clock)
    requires d.run.status == Approved && Moved(d, Queued, clock).Ok?
    ensures Adds(d, Noted(WithActionStatus(Moved(d, Queued, clock).value, ActionQueued), "EXECUTION_SUBMITTED", clock),
                 [StateChanged(Approved, Queued), Note("EXECUTION_SUBMITTED")])
  {
    MovedTrail(d, Queued, clock);
    NotedTrail(WithActionStatus(Moved(d, Queued, clock).value, ActionQueued), "EXECUTION_SUBMITTED", clock);
  }

  lemma ResumedAdds(w: World, id: nat, outside: Outside, delivery: Delivery, clock: Clock)
    requires WorldOk(w) && ExecutionResumed(w, id, outside, delivery, clock).error == None
    ensures var later := ExecutionResumed(w, id, outside, delivery, clock).world.data;
      Adds(w.data, later, [StateChanged(Queued, Executing)] + SendingEntries(later, delivery))
  {
    var moved := Moved(w.data, Executing, clock);
    var later := ExecutionResumed(w, id, outside, delivery, clock).world.data;
    assert moved.Ok? && w.data.run.status == Queued;
    MovedTrail(w.data, Executing, clock);
    SentAdds(w.data, moved.value, w.waiting[0], w.runtime, id, outside, delivery, clock);
    AddsBoth(w.data, moved.value, later, [StateChanged(Queued, Executing)], SendingEntries(later, delivery));
  }

  lemma UnknownCancelAdds(d: Data, clock: Clock)
    ensures var asked := Noted(d, "RUNTIME_CANCEL_REQUESTED", clock);
      Moved(asked, Cancelled, clock).Ok? ==>
        Adds(d, Moved(asked, Cancelled, clock).value,
             [Note("RUNTIME_CANCEL_REQUESTED"), StateChanged(d.run.status, Cancelled)])
  {
    var asked := Noted(d, "RUNTIME_CANCEL_REQUESTED", clock);
    NotedTrail(d, "RUNTIME_CANCEL_REQUESTED", clock);
    if Moved(asked, Cancelled, clock).Ok? {
      MovedTrail(asked, Cancelled, clock);
    }
  }

  lemma KnownCancelAdds(d: Data, actions: seq<Action>, clock: Clock)
    ensures var stopped := Noted(Noted(d, "RUNTIME_CANCEL_REQUESTED", clock).(actions := actions), "RUNTIME_CANCELLED",
                                 clock);
      Moved(stopped, Cancelled, clock).Ok? ==>
        Adds(d, Moved(stopped, Cancelled, clock).value,
             [Note("RUNTIME_CANCEL_REQUESTED"), Note("RUNTIME_CANCELLED"), StateChanged(d.run.status, Cancelled)])
  {
    var asked := Noted(d, "RUNTIME_CANCEL_REQUESTED", clock).(actions := actions);
    var stopped := Noted(asked, "RUNTIME_CANCELLED", clock);
    NotedTrail(d, "RUNTIME_CANCEL_REQUESTED", clock);
    NotedTrail(asked, "RUNTIME_CANCELLED", clock);
    if Moved(stopped, Cancelled, clock).Ok? {
      MovedTrail(stopped, Cancelled, clock);
    }
  }

  lemma CancelAdds(d: Data, reply: Option<ExecutionStatus>, clock: Clock)
    requires RowsOk(d) && CancelledBy(d, reply, clock).error == None && d.run.completedAt.None?
    ensures Adds(d, CancelledBy(d, reply, clock).data, CancelEntries(d))
  {
    if d.run.executionId.None? {
      UnknownCancelAdds(d, clock);
    } else {
      KnownCancelAdds(d, WithStopped(d.actions), clock);
    }
  }

  lemma EditAdds(d: Data, text: string, destination: Destination, expected: Payload, clock: Clock)
    requires SummaryEdited(d, text, destination, expected, clock).error == None
    ensures Adds(d, SummaryEdited(d, text, destination, expected, clock).data, [Note("ACTION_EDITED")])
  {
    RecordedTrail(d.log, d.id, Note("ACTION_EDITED"), clock);
  }

  lemma DestinationAdds(d: Data, destination: Destination, clock: Clock)
    requires DestinationUpdated(d, destination, clock).error == None
    ensures Adds(d, DestinationUpdated(d, destination, clock).data, [Note("NOTION_DESTINATION_SELECTED")])
  {
    RecordedTrail(d.log, d.id, Note("NOTION_DESTINATION_SELECTED"), clock);
  }

  lemma ResolvedAdds(d: Data, approvalId: nat, payload: Option<Payload>, approve: bool, now: int, clock: Clock)
    requires RowsOk(d) && Resolved(d, approvalId, payload, approve, now, clock).error == None
    ensures var later := Resolved(d, approvalId, payload, approve, now, clock).data;
      && approvalId < |d.approvals| && approvalId < |later.approvals|
      && Adds(d, later, DecisionEntries(d, later, approvalId, approve))
  {
    var i := FindApproval(d.approvals, approvalId);
    assert i < |d.approvals| && d.approvals[i].id == i;
    assert FindAction(d.actions, d.approvals[i].actionId) == i;
    if approve {
      GrantingAdds(d, i, now, clock);
    } else {
      DecliningAdds(d, i, now, clock);
    }
  }

  lemma OtherEventAdds(d: Data, run: nat, kind: Kind, clock: Clock)
    requires run != d.id
    ensures Adds(d, d.(log := Recorded(d.log, run, kind, clock)), [])
  {
    RecordedFront(d.log, run, kind, clock);
  }

  /** The committed step has added its rows. */
  predicate AddsEntries(w: World, step: Step, later: Data) {
    && (step.Resolve? ==> step.approvalId < |w.data.approvals| && step.approvalId < |later.approvals|)
    && Adds(w.data, later, Entries(w, step, later))
  }

  lemma PlanningAdds(w: World, step: Step, clock: Clock)
    requires WorldOk(w) && (Plans(step) || Proposes(step)) && Next(w, step, clock).error == None
    ensures AddsEntries(w, step, Next(w, step, clock).world.data)
  {
    match step
    case FinishSummary(text, destination) =>
      PlannedAdds(w.data, text, [Proposal(CreateNotionStudyPage, Page(text, destination))], clock);
    case FinishOtherPlan(text, proposals) => PlannedAdds(w.data, text, proposals, clock);
    case _ => EarlyAdds(w, step, clock);
  }

  lemma DecidingAdds(w: World, step: Step, clock: Clock)
    requires WorldOk(w) && Decides(step) && Next(w, step, clock).error == None
    ensures AddsEntries(w, step, Next(w, step, clock).world.data)
  {
    match step
    case Edit(text, destination, expected) => EditAdds(w.data, text, destination, expected, clock);
    case UpdateDestination(destination) => DestinationAdds(w.data, destination, clock);
    case Resolve(approvalId, payload, approve, now) => ResolvedAdds(w.data, approvalId, payload, approve, now, clock);
  }

  lemma CommittedAdds(w: World, step: Step, clock: Clock)
    requires WorldOk(w) && Next(w, step, clock).error == None
    ensures AddsEntries(w, step, Next(w, step, clock).world.data)
  {
    if Plans(step) || Proposes(step) {
      PlanningAdds(w, step, clock);
    } else if Decides(step) {
      DecidingAdds(w, step, clock);
    } else {
      match step
      case Execute(id, outside, delivery) => BegunAdds(w, id, outside, delivery, clock);
      case Resume(id, outside, delivery) => ResumedAdds(w, id, outside, delivery, clock);
      case Cancel(reply) =>
        if w.data.run.completedAt.None? {
          CancelAdds(w.data, reply, clock);
        }
      case OtherSubmission(_, _, _) =>
      case OtherEvent(run, kind) => OtherEventAdds(w.data, run, kind, clock);
    }
  }

  // ----- Refusals

  lemma ExecutingRefuses(w: World, step: Step, clock: Clock)
    requires WorldOk(w) && (step.Execute? || step.Resume?) && Next(w, step, clock).error.Some?
    ensures Unchanged(w.data, Next(w, step, clock).world.data)
  {
    if Sends(w, step) {
      OkExecutionOutcome(w, step, clock);
    } else if step.Execute? {
      OkQueueOutcome(w, step.id, step.outside, step.delivery, clock);
    } else if w.data.run.status != Queued {
      OkLateOutcome(w, step.id, step.outside, step.delivery, clock);
    }
  }

  lemma PlanningRefuses(w: World, step: Step, clock: Clock)
    requires WorldOk(w) && (Plans(step) || Proposes(step)) && Next(w, step, clock).error.Some?
    ensures Unchanged(w.data, Next(w, step, clock).world.data)
  {
    if Plans(step) {
      OkEarlyOutcome(w, step, clock);
    } else {
      OkPlanMade(w, step, clock);
    }
  }

  lemma DecidingRefuses(w: World, step: Step, clock: Clock)
    requires WorldOk(w) && (Decides(step) || step.Cancel?) && Next(w, step, clock).error.Some?
    ensures Unchanged(w.data, Next(w, step, clock).world.data)
  {
    if step.Resolve? {
      OkDecisionMade(w, step.approvalId, step.payload, step.approve, step.now, clock);
    } else if step.Cancel? {
      OkCancelMade(w, step.reply, clock);
    } else {
      OkRewritingOutcome(w, step, clock);
    }
  }

  lemma RefusedChangesNothing(w: World, step: Step, clock: Clock)
    requires WorldOk(w) && Next(w, step, clock).error.Some?
    ensures Unchanged(w.data, Next(w, step, clock).world.data)
  {
    if step.Execute? || step.Resume? {
      ExecutingRefuses(w, step, clock);
    } else if Plans(step) || Proposes(step) {
      PlanningRefuses(w, step, clock);
    } else if Decides(step) || step.Cancel? {
      DecidingRefuses(w, step, clock);
    }
  }

  /** The audit log tells exactly what happened: a call that commits adds the rows of its step for the
      run, in their order, and a call that is refused leaves the log and the rows as they were. */
  lemma AuditRowsOfEachStep(id: nat, owner: nat, steps: seq<Timed>, step: Step, clock: Clock)
    ensures var w := After(Start(id, owner), steps);
      var effect := Next(w, step, clock);
      if effect.error.Some? then Unchanged(w.data, effect.world.data)
      else AddsEntries(w, step, effect.world.data)
  {
    ReachableOk(id, owner, steps);
    var w := After(Start(id, owner), steps);
    if Next(w, step, clock).error.Some? {
      RefusedChangesNothing(w, step, clock);
    } else {
      CommittedAdds(w, step, clock);
    }
  }
}
