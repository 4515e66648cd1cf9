/** The log tells how the run came to its state, after every step on the rows. */
module LearnLog {
  import opened Wrappers
  import opened WorkflowStates
  import opened AuditTrail
  import opened Payloads
  import opened LocalRuntime
  import opened LearnRun

  /** The log is in order and its events lead along the table to the state. */
  predicate Told(log: Log, id: nat, status: Status) {
    Ordered(log) && Story(log.events, id) == Some(status)
  }

  /** The log also continues the given events. */
  predicate Grown(events: seq<Event>, log: Log, id: nat, status: Status) {
    events <= log.events && Told(log, id, status)
  }

  predicate LogOk(d: Data) {
    Told(d.log, d.id, d.run.status)
  }

  lemma OtherKeepsTold(log: Log, id: nat, status: Status, run: nat, kind: Kind, clock: Clock)
    requires Told(log, id, status)
    requires kind.StateChanged? ==> run != id
    ensures Told(Recorded(log, run, kind, clock), id, status)
  {
    RecordKeepsOrder(log, run, kind, clock);
    RecordedFront(log, run, kind, clock);
  }

  lemma RecordedFront(log: Log, run: nat, kind: Kind, clock: Clock)
    ensures var events := Recorded(log, run, kind, clock).events;
      events[..|events| - 1] == log.events
  {
  }

  lemma NoteGrows(events: seq<Event>, log: Log, id: nat, status: Status, name: string, clock: Clock)
    requires Grown(events, log, id, status)
    ensures Grown(events, Recorded(log, id, Note(name), clock), id, status)
  {
    OtherKeepsTold(log, id, status, id, Note(name), clock);
  }

  lemma ChangeGrows(events: seq<Event>, log: Log, id: nat, status: Status, target: Status, clock: Clock)
    requires Grown(events, log, id, status) && target in Targets(status)
    ensures Grown(events, Recorded(log, id, StateChanged(status, target), clock), id, target)
  {
    RecordKeepsOrder(log, id, StateChanged(status, target), clock);
    RecordedFront(log, id, StateChanged(status, target), clock);
  }

  lemma RollBackKeepsTold(before: Log, id: nat, status: Status, at: Log, now: Status)
    requires Told(before, id, status) && Grown(before.events, at, id, now)
    ensures Told(Log(at.last, before.events), id, status)
  {
    RollBackKeepsOrder(at, |before.events|);
    assert at.events[..|before.events|] == before.events;
  }

  // ----- The same, for rows

  predicate Continues(before: Data, d: Data) {
    d.id == before.id && Grown(before.log.events, d.log, d.id, d.run.status)
  }

  lemma Same(d: Data)
    requires LogOk(d)
    ensures Continues(d, d)
  {
  }

  lemma NotedContinues(before: Data, d: Data, name: string, clock: Clock)
    requires Continues(before, d)
    ensures Continues(before, Noted(d, name, clock))
  {
    NoteGrows(before.log.events, d.log, d.id, d.run.status, name, clock);
  }

  lemma MovedContinues(before: Data, d: Data, target: Status, clock: Clock)
    requires Continues(before, d) && Moved(d, target, clock).Ok?
    ensures Continues(before, Moved(d, target, clock).value)
  {
    ChangeGrows(before.log.events, d.log, d.id, d.run.status, target, clock);
  }

  lemma EndedTells(before: Data, at: Data, result: Result<Data, Error>)
    requires LogOk(before) && Continues(before, at) && (result.Ok? ==> Continues(before, result.value))
    ensures LogOk(Ended(before, at, result).data)
  {
    if result.Err? {
      RollBackKeepsTold(before.log, before.id, before.run.status, at.log, at.run.status);
    }
  }

  lemma EndedMoveTells(before: Data, at: Data, target: Status, clock: Clock)
    requires LogOk(before) && Continues(before, at)
    ensures LogOk(Ended(before, at, Moved(at, target, clock)).data)
  {
    if Moved(at, target, clock).Ok? {
      MovedContinues(before, at, target, clock);
    }
    EndedTells(before, at, Moved(at, target, clock));
  }

  // ----- Each step

  lemma AnalysisTells(d: Data, clock: Clock)
    requires LogOk(d)
    ensures LogOk(AnalysisStarted(d, clock).data)
  {
    Same(d);
    var moved := Moved(d, Analyzing, clock);
    if moved.Ok? {
      MovedContinues(d, d, Analyzing, clock);
      NotedContinues(d, moved.value, "DOCUMENT_PARSE_STARTED", clock);
    }
    EndedTells(d, d,
      if moved.Ok? then Ok(Noted(moved.value, "DOCUMENT_PARSE_STARTED", clock).(document := BeingParsed)) else moved);
  }

  lemma ParsedTells(d: Data, clock: Clock)
    requires LogOk(d)
    ensures LogOk(DocumentParsed(d, clock).data)
  {
    Same(d);
    NotedContinues(d, d, "DOCUMENT_PARSED", clock);
  }

  lemma FailingTells(d: Data, name: string, code: Code, clock: Clock)
    requires LogOk(d)
    ensures LogOk(Failing(d, name, code, clock).data)
  {
    Same(d);
    var marked := d.(run := d.run.(errorCode := Some(Permanent(code))));
    NotedContinues(d, marked, name, clock);
    EndedMoveTells(d, Noted(marked, name, clock), Failed, clock);
  }


  lemma ClaimTells(d: Data, clock: Clock)
    requires LogOk(d)
    ensures LogOk(SummaryClaimed(d, clock).data)
  {
    Same(d);
    NotedContinues(d, d.(run := d.run.(plan := Summarizing)), "SUMMARY_GENERATION_STARTED", clock);
  }

  lemma {:induction false} ActionsTell(before: Data, d: Data, proposals: seq<Proposal>, clock: Clock)
    requires Continues(before, d)
    ensures Continues(before, WithActions(d, proposals, clock))
  {
    if proposals != [] {
      var front, last := proposals[..|proposals| - 1], proposals[|proposals| - 1];
      ActionsTell(before, d, front, clock);
      var made := WithActions(d, front, clock);
      NotedContinues(before, made.(actions := made.actions
        + [Action(|made.actions|, last.operation, last.payload, Proposed)]),
                     "PROPOSED_ACTION_CREATED", clock);
    }
  }

  lemma {:induction false} RequestsTell(before: Data, d: Data, count: nat, clock: Clock)
    requires Continues(before, d) && count <= |d.actions|
    ensures Continues(before, WithRequests(d, count, clock))
  {
    if count != 0 {
      RequestsTell(before, d, count - 1, clock);
      var made := WithRequests(d, count - 1, clock);
      var after := WithRequests(d, count, clock);
      NotedContinues(before, made.(approvals := after.approvals), "APPROVAL_REQUESTED", clock);
    }
  }

  lemma RequestedTells(before: Data, d: Data, clock: Clock)
    requires LogOk(before) && Continues(before, d)
    ensures LogOk(Requested(before, d, clock).data)
  {
    if Requested(before, d, clock).data == RolledBack(before, d) {
      EndedTells(before, d, Err(ApprovalRequired));
    } else {
      RequestsTell(before, d, |d.actions|, clock);
      EndedMoveTells(before, WithRequests(d, |d.actions|, clock), AwaitingApproval, clock);
    }
  }

  lemma PlannedTells(d: Data, text: string, proposals: seq<Proposal>, clock: Clock)
    requires LogOk(d)
    ensures LogOk(Planned(d, text, proposals, clock).data)
  {
    Same(d);
    var marked := d.(run := d.run.(plan := Summarized(text)));
    var summarized := Noted(marked, "SUMMARY_GENERATED", clock);
    NotedContinues(d, marked, "SUMMARY_GENERATED", clock);
    var ready := Moved(summarized, PlanReady, clock);
    if ready.Ok? {
      MovedContinues(d, summarized, PlanReady, clock);
      ActionsTell(d, ready.value, proposals, clock);
      RequestedTells(d, WithActions(ready.value, proposals, clock), clock);
    } else {
      EndedTells(d, summarized, ready);
    }
  }

  lemma EditTells(d: Data, text: string, destination: Destination, expected: Payload, clock: Clock)
    requires LogOk(d)
    ensures LogOk(SummaryEdited(d, text, destination, expected, clock).data)
  {
    Same(d);
    if SummaryEdited(d, text, destination, expected, clock).error.None? {
      NotedContinues(d, Rewritten(d, Page(text, destination)).(run := d.run.(plan := Summarized(text))),
                     "ACTION_EDITED", clock);
    }
  }

  lemma DestinationTells(d: Data, destination: Destination, clock: Clock)
    requires LogOk(d)
    ensures LogOk(DestinationUpdated(d, destination, clock).data)
  {
    Same(d);
    if DestinationUpdated(d, destination, clock).error.None? {
      var payload := Page(d.run.plan.text, destination);
      NotedContinues(d, if d.approvals[0].status == Pending then Rewritten(d, payload)
                        else d.(actions := [d.actions[0].(payload := payload)]),
                     "NOTION_DESTINATION_SELECTED", clock);
    }
  }

  lemma {:induction false} ExpiryTells(before: Data, d: Data, count: nat, now: int, clock: Clock)
    requires Continues(before, d) && count <= |d.approvals|
    ensures Continues(before, WithExpired(d, count, now, clock))
  {
    if count != 0 {
      ExpiryTells(before, d, count - 1, now, clock);
      var made := WithExpired(d, count - 1, now, clock);
      if made.approvals[count - 1].status == Pending {
        NotedContinues(before,
                       made.(approvals := made.approvals[count - 1 := ExpiredOne(made.approvals[count - 1], now)]),
                       "APPROVAL_EXPIRED", clock);
      }
    }
  }

  lemma DecidedTells(d: Data, i: nat, j: nat, approve: bool, now: int, clock: Clock)
    requires LogOk(d) && i < |d.approvals| && j < |d.actions|
    ensures Continues(d, Decided(d, i, j, approve, now, clock))
  {
    Same(d);
    var decided := Decided(d, i, j, approve, now, clock);
    NotedContinues(d, decided.(log := d.log), if approve then "ACTION_APPROVED" else "ACTION_REJECTED", clock);
  }

  lemma ConcludedTells(d: Data, decided: Data, approve: bool, now: int, clock: Clock)
    requires LogOk(d) && Continues(d, decided)
    ensures LogOk(Concluded(d, decided, approve, now, clock).data)
  {
    if approve {
      EndedMoveTells(d, decided, Approved, clock);
    } else {
      ExpiryTells(d, decided, |decided.approvals|, now, clock);
      EndedMoveTells(d, WithExpired(decided, |decided.approvals|, now, clock), Rejected, clock);
    }
  }

  lemma ResolvedAtTells(d: Data, i: nat, j: nat, payload: Option<Payload>, approve: bool, now: int, clock: Clock)
    requires LogOk(d) && i < |d.approvals| && j <= |d.actions|
    ensures LogOk(ResolvedAt(d, i, j, payload, approve, now, clock).data)
  {
    if j < |d.actions| {
      DecidedTells(d, i, j, approve, now, clock);
      ConcludedTells(d, Decided(d, i, j, approve, now, clock), approve, now, clock);
    }
  }

  lemma ResolvedTells(d: Data, approvalId: nat, payload: Option<Payload>, approve: bool, now: int, clock: Clock)
    requires LogOk(d)
    ensures LogOk(Resolved(d, approvalId, payload, approve, now, clock).data)
  {
    var i := FindApproval(d.approvals, approvalId);
    if i < |d.approvals| {
      ResolvedAtTells(d, i, FindAction(d.actions, d.approvals[i].actionId), payload, approve, now, clock);
    }
  }

  lemma CancelTells(d: Data, reply: Option<ExecutionStatus>, clock: Clock)
    requires LogOk(d)
    ensures LogOk(CancelledBy(d, reply, clock).data)
  {
    Same(d);
    var asked := Noted(d, "RUNTIME_CANCEL_REQUESTED", clock);
    NotedContinues(d, d, "RUNTIME_CANCEL_REQUESTED", clock);
    if d.run.executionId.None? {
      EndedMoveTells(d, asked, Cancelled, clock);
    } else if reply != Some(RunCancelled) {
      EndedTells(d, asked, Err(RuntimeFailure));
    } else {
      var halted := asked.(actions := WithStopped(d.actions));
      NotedContinues(d, halted, "RUNTIME_CANCELLED", clock);
      EndedMoveTells(d, Noted(halted, "RUNTIME_CANCELLED", clock), Cancelled, clock);
    }
  }

  // ----- Executing

  lemma SettledTells(before: Data, d: Data, key: Key, snapshot: Snapshot, clock: Clock)
    requires LogOk(before) && Continues(before, d)
    ensures var (at, result) := Settled(d, key, snapshot, clock);
      Continues(before, at) && (result.Ok? ==> Continues(before, result.value))
  {
    var known := d.(run := d.run.(executionId := Some(snapshot.id)));
    if !TerminalSnapshot(snapshot.status) {
      SyncTells(before, known, snapshot.status, clock);
    } else if snapshot.status == RunCancelled {
      MoveTells(before, WithActionStatus(known, ActionFailed), Cancelled, clock);
    } else if snapshot.status == Succeeded && snapshot.result.Some? {
      if snapshot.result.value.Single? {
        ArtifactTells(before, known, key, snapshot.result.value.external, clock);
      }
    } else {
      FailureTells(before, known, snapshot, clock);
    }
  }

  lemma MoveTells(before: Data, d: Data, target: Status, clock: Clock)
    requires Continues(before, d)
    ensures Moved(d, target, clock).Ok? ==> Continues(before, Moved(d, target, clock).value)
  {
    if Moved(d, target, clock).Ok? {
      MovedContinues(before, d, target, clock);
    }
  }

  lemma SyncTells(before: Data, known: Data, status: ExecutionStatus, clock: Clock)
    requires Continues(before, known)
    ensures var (at, result) := Synced(known, status, clock);
      Continues(before, at) && (result.Ok? ==> Continues(before, result.value))
  {
    var synced := WithActionStatus(known, if status == RunQueued then ActionQueued else ActionExecuting);
    var target := WorkflowStatusFor(status);
    MoveTells(before, synced, target, clock);
    var moved := if synced.run.status != target then Moved(synced, target, clock) else Ok(synced);
    if moved.Ok? {
      NotedContinues(before, moved.value, "RUNTIME_STATUS_SYNCED", clock);
    }
  }

  lemma ArtifactTells(before: Data, known: Data, key: Key, external: string, clock: Clock)
    requires Continues(before, known)
    ensures var made := WithArtifact(known, key, external, clock);
      var moved := Moved(made, Completed, clock);
      Continues(before, made) && (moved.Ok? ==> Continues(before, Noted(moved.value, "WORKFLOW_COMPLETED", clock)))
  {
    var bare := WithActionStatus(known, ActionCompleted).(artifact := Some(Artifact(key, external)));
    var one := Noted(bare, "EXTERNAL_ACTION_COMPLETED", clock);
    var two := Noted(one, "NOTION_PAGE_CREATED", clock);
    NotedContinues(before, bare, "EXTERNAL_ACTION_COMPLETED", clock);
    NotedContinues(before, one, "NOTION_PAGE_CREATED", clock);
    NotedContinues(before, two, "EXTERNAL_ARTIFACT_RECORDED", clock);
    var made := WithArtifact(known, key, external, clock);
    MoveTells(before, made, Completed, clock);
    if Moved(made, Completed, clock).Ok? {
      NotedContinues(before, Moved(made, Completed, clock).value, "WORKFLOW_COMPLETED", clock);
    }
  }

  lemma FailureTells(before: Data, known: Data, snapshot: Snapshot, clock: Clock)
    requires Continues(before, known)
    ensures var failed := WithFailure(known, snapshot, clock);
      Continues(before, failed)
      && (Moved(failed, Failed, clock).Ok? ==> Continues(before, Moved(failed, Failed, clock).value))
  {
    var bare := WithActionStatus(known, ActionFailed);
    var coded := bare.(run := bare.run.(errorCode := Some(Permanent(FailureCode(snapshot)))));
    NotedContinues(before, coded, "NOTION_PAGE_CREATE_FAILED", clock);
    NotedContinues(before, Noted(coded, "NOTION_PAGE_CREATE_FAILED", clock), "EXTERNAL_ACTION_FAILED", clock);
    MoveTells(before, WithFailure(known, snapshot, clock), Failed, clock);
  }

  /** Recovery writes the status without an event: the log still tells the truth because the write
      changes nothing. */
  lemma RecoveryTells(before: Data, d: Data, reason: RecoverableError, clock: Clock)
    requires Continues(before, d) && d.run.status == Executing
    ensures Continues(before, MarkedRecoverable(d, ActionExecuting, reason, clock))
  {
    NotedContinues(before, d.(run := d.run.(errorCode := Some(Recoverable(reason)))), "RUNTIME_RECOVERABLE_FAILURE",
                   clock);
  }

  lemma StartTells(before: Data, d: Data, clock: Clock)
    requires Continues(before, d)
    ensures Continues(before, SendStarted(d, clock))
  {
    var busy := WithActionStatus(d, ActionExecuting);
    NotedContinues(before, busy, "EXTERNAL_EXECUTION_STARTED", clock);
    NotedContinues(before, Noted(busy, "EXTERNAL_EXECUTION_STARTED", clock), "NOTION_PAGE_CREATE_STARTED", clock);
  }

  lemma AnsweredTells(before: Data, started: Data, key: Key, snapshot: Snapshot, clock: Clock)
    requires LogOk(before) && Continues(before, started)
    ensures var (at, settled) := Settled(started, key, snapshot, clock);
      LogOk(Ended(before, at, settled).data)
  {
    SettledTells(before, started, key, snapshot, clock);
    var (at, settled) := Settled(started, key, snapshot, clock);
    EndedTells(before, at, settled);
  }

  lemma SentTells(before: Data, d: Data, request: Request, runtime: Runtime, id: nat, outside: Outside,
                  delivery: Delivery, clock: Clock)
    requires LogOk(before) && Continues(before, d) && d.run.status == Executing
    ensures LogOk(Sent(before, d, request, runtime, id, outside, delivery, clock).0.data)
  {
    var data := Sent(before, d, request, runtime, id, outside, delivery, clock).0.data;
    var started := SendStarted(d, clock);
    StartTells(before, d, clock);
    var answer := Answer(runtime, request, id, outside);
    if delivery.RequestLost? || (delivery.ResponseLost? && answer.Ok?) {
      RecoveryTells(before, started, delivery.reason, clock);
    } else if delivery.Broken? || answer.Err? {
      EndedTells(before, started, Err(RuntimeFailure));
      assert data == RolledBack(before, started);
    } else {
      AnsweredTells(before, started, request.key, Shown(answer.value, delivery), clock);
    }
  }

  lemma QueuedTells(d: Data, clock: Clock)
    requires LogOk(d) && Moved(d, Queued, clock).Ok?
    ensures LogOk(Noted(WithActionStatus(Moved(d, Queued, clock).value, ActionQueued), "EXECUTION_SUBMITTED", clock))
  {
    Same(d);
    MovedContinues(d, d, Queued, clock);
    NotedContinues(d, WithActionStatus(Moved(d, Queued, clock).value, ActionQueued), "EXECUTION_SUBMITTED", clock);
  }

  lemma BegunTells(w: World, id: nat, outside: Outside, delivery: Delivery, clock: Clock)
    requires LogOk(w.data) && (HasRecoverableError(w.data.run) ==> w.data.run.status == Executing)
    ensures LogOk(ExecutionBegun(w, id, outside, delivery, clock).world.data)
  {
    var d := w.data;
    if (d.run.status == Approved || HasRecoverableError(d.run)) && Executable(d) {
      Same(d);
      if d.artifact.Some? && d.artifact.value.key == ExecutionKey(d) {
        EndedMoveTells(d, WithActionStatus(d, ActionCompleted), Completed, clock);
      } else if d.run.status == Approved {
        if Moved(d, Queued, clock).Ok? {
          QueuedTells(d, clock);
        }
      } else {
        SentTells(d, d, ExecutionRequest(d), w.runtime, id, outside, delivery, clock);
      }
    }
  }

  lemma ResumedTells(w: World, id: nat, outside: Outside, delivery: Delivery, clock: Clock)
    requires LogOk(w.data)
    ensures LogOk(ExecutionResumed(w, id, outside, delivery, clock).world.data)
  {
    if w.waiting != [] && Moved(w.data, Executing, clock).Ok? {
      Same(w.data);
      MovedContinues(w.data, w.data, Executing, clock);
      SentTells(w.data, Moved(w.data, Executing, clock).value, w.waiting[0], w.runtime, id, outside, delivery, clock);
    }
  }

  predicate Plans(step: Step) {
    step.StartAnalysis? || step.FinishParsing? || step.FailParsing? || step.ClaimSummary? || step.FailSummary?
  }

  predicate Proposes(step: Step) {
    step.FinishSummary? || step.FinishOtherPlan?
  }

  predicate Decides(step: Step) {
    step.Edit? || step.UpdateDestination? || step.Resolve?
  }

  lemma ProposingTells(w: World, step: Step, clock: Clock)
    requires LogOk(w.data) && Proposes(step)
    ensures LogOk(Next(w, step, clock).world.data)
  {
    match step
    case FinishSummary(text, destination) =>
      PlannedTells(w.data, text, [Proposal(CreateNotionStudyPage, Page(text, destination))], clock);
    case FinishOtherPlan(text, proposals) => PlannedTells(w.data, text, proposals, clock);
  }

  lemma PlanningTells(w: World, step: Step, clock: Clock)
    requires LogOk(w.data) && Plans(step)
    ensures LogOk(Next(w, step, clock).world.data)
  {
    var d := w.data;
    match step
    case StartAnalysis => AnalysisTells(d, clock);
    case FinishParsing => ParsedTells(d, clock);
    case FailParsing(code) => FailingTells(d.(document := ParseFailed), "DOCUMENT_PARSE_FAILED", code, clock);
    case ClaimSummary => ClaimTells(d, clock);
    case FailSummary(code) => FailingTells(d, "SUMMARY_GENERATION_FAILED", code, clock);
  }

  lemma DecidingTells(w: World, step: Step, clock: Clock)
    requires LogOk(w.data) && Decides(step)
    ensures LogOk(Next(w, step, clock).world.data)
  {
    var d := w.data;
    match step
    case Edit(text, destination, expected) => EditTells(d, text, destination, expected, clock);
    case UpdateDestination(destination) => DestinationTells(d, destination, clock);
    case Resolve(approvalId, payload, approve, now) => ResolvedTells(d, approvalId, payload, approve, now, clock);
  }

  /** After every step the log tells how the run came to its state. */
  lemma StepTells(w: World, step: Step, clock: Clock)
    requires LogOk(w.data) && (HasRecoverableError(w.data.run) ==> w.data.run.status == Executing)
    ensures LogOk(Next(w, step, clock).world.data)
  {
    if Plans(step) {
      PlanningTells(w, step, clock);
    } else if Proposes(step) {
      ProposingTells(w, step, clock);
    } else if Decides(step) {
      DecidingTells(w, step, clock);
    } else {
      match step
      case Execute(id, outside, delivery) => BegunTells(w, id, outside, delivery, clock);
      case Resume(id, outside, delivery) => ResumedTells(w, id, outside, delivery, clock);
      case Cancel(reply) => CancelTells(w.data, reply, clock);
      case OtherSubmission(_, _, _) =>
      case OtherEvent(run, kind) =>
        if run != w.data.id {
          OtherKeepsTold(w.data.log, w.data.id, w.data.run.status, run, kind, clock);
        }
    }
  }
}
