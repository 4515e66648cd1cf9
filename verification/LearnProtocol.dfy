/** What holds in every reachable world of a run: approvals, submissions and cancellation. */
module LearnProtocol {
  import opened Wrappers
  import opened WorkflowStates
  import opened AuditTrail
  import opened Payloads
  import opened LocalRuntime
  import opened LearnRun
  import opened LearnLog
  import opened LearnRows

  /** A run whose request may have reached the runtime. From here on the request is fixed. */
  predicate Submittable(d: Data) {
    d.run.status in {Queued, Executing, Completed, Failed, Cancelled} && Executable(d)
  }

  predicate Own(run: nat, key: Key) {
    key.LearnKey? && key.run == run
  }

  /** The only record of the run is that of its one request. */
  predicate RecordsOf(runtime: Runtime, run: nat, request: Request) {
    forall k :: k in runtime.executions && Own(run, k) ==>
      && k == request.key
      && runtime.executions[k].payload == request.payload
      && runtime.executions[k].operation == request.operation
  }

  predicate NoRecords(runtime: Runtime, run: nat) {
    forall k :: k in runtime.executions ==> !Own(run, k)
  }

  predicate RecordsOk(d: Data, runtime: Runtime) {
    if Submittable(d) then RecordsOf(runtime, d.id, ExecutionRequest(d)) else NoRecords(runtime, d.id)
  }

  /** A completed run's artifact is the result of its own recorded execution. */
  predicate ArtifactOk(d: Data, runtime: Runtime) {
    d.artifact.Some? ==>
      && d.artifact.value.key in runtime.executions
      && runtime.executions[d.artifact.value.key].snapshot.status == Succeeded
      && runtime.executions[d.artifact.value.key].snapshot.result == Some(Single(d.artifact.value.external))
  }

  predicate WaitingOk(d: Data, waiting: seq<Request>) {
    waiting != [] ==>
      |waiting| == 1 && d.run.status in {Queued, Cancelled} && Executable(d) && waiting[0] == ExecutionRequest(d)
  }

  predicate ProtocolOk(w: World) {
    && Sound(w.runtime)
    && RecordsOk(w.data, w.runtime)
    && ArtifactOk(w.data, w.runtime)
    && WaitingOk(w.data, w.waiting)
  }

  predicate WorldOk(w: World) {
    RowsOk(w.data) && LogOk(w.data) && ProtocolOk(w)
  }

  // ----- Steps that only touch the rows

  /** A later state of the same run in which a request, once possible, is still the same. */
  predicate Settles(d: Data, later: Data) {
    && later.id == d.id
    && later.artifact == d.artifact
    && (Submittable(d) ==> Submittable(later) && ExecutionRequest(later) == ExecutionRequest(d))
    && (!Submittable(d) ==> !Submittable(later) || later.run.status == Cancelled || later.run.status == Failed)
    && (d.run.status in {Queued, Cancelled} ==> later.run.status in {Queued, Cancelled})
  }

  lemma RowStepKeepsProtocol(w: World, later: Data)
    requires WorldOk(w) && Settles(w.data, later)
    ensures ProtocolOk(w.(data := later))
  {
  }

  lemma ProgressSettles(d: Data, clock: Clock)
    requires RowsOk(d)
    ensures Settles(d, AnalysisStarted(d, clock).data)
    ensures Settles(d, DocumentParsed(d, clock).data)
    ensures Settles(d, SummaryClaimed(d, clock).data)
  {
  }

  lemma FailureSettles(d: Data, code: Code, clock: Clock)
    requires RowsOk(d)
    ensures Settles(d, ParsingFailed(d, code, clock).data)
    ensures Settles(d, SummaryFailed(d, code, clock).data)
  {
  }

  lemma RequestedSettles(before: Data, d: Data, clock: Clock)
    requires before.run.status == Analyzing && d.id == before.id && d.artifact == before.artifact
    ensures Settles(before, Requested(before, d, clock).data)
  {
    if d.approvals == [] {
      RequestsAdded(d, |d.actions|, clock);
    }
  }

  lemma PlannedSettles(d: Data, text: string, proposals: seq<Proposal>, clock: Clock)
    requires RowsOk(d)
    ensures Settles(d, Planned(d, text, proposals, clock).data)
  {
    var summarized := Noted(d.(run := d.run.(plan := Summarized(text))), "SUMMARY_GENERATED", clock);
    var ready := Moved(summarized, PlanReady, clock);
    if ready.Ok? {
      ActionsAdded(ready.value, proposals, clock);
      RequestedSettles(d, WithActions(ready.value, proposals, clock), clock);
    }
  }

  lemma RewritingSettles(d: Data, text: string, destination: Destination, expected: Payload, clock: Clock)
    requires RowsOk(d)
    ensures Settles(d, SummaryEdited(d, text, destination, expected, clock).data)
    ensures Settles(d, DestinationUpdated(d, destination, clock).data)
  {
  }

  lemma ConcludedSettles(d: Data, decided: Data, approve: bool, now: int, clock: Clock)
    requires d.run.status == AwaitingApproval
    requires decided.run == d.run && decided.id == d.id && decided.artifact == d.artifact
    ensures Settles(d, Concluded(d, decided, approve, now, clock).data)
  {
    ExpiredAll(decided, |decided.approvals|, now, clock);
  }

  lemma ResolvedSettles(d: Data, approvalId: nat, payload: Option<Payload>, approve: bool, now: int, clock: Clock)
    requires RowsOk(d)
    ensures Settles(d, Resolved(d, approvalId, payload, approve, now, clock).data)
  {
    var i := FindApproval(d.approvals, approvalId);
    if i < |d.approvals| && d.run.status == AwaitingApproval {
      var j := FindAction(d.actions, d.approvals[i].actionId);
      if j < |d.actions| {
        ConcludedSettles(d, Decided(d, i, j, approve, now, clock), approve, now, clock);
      }
    }
  }

  lemma CancelSettles(d: Data, reply: Option<ExecutionStatus>, clock: Clock)
    requires RowsOk(d)
    ensures Settles(d, CancelledBy(d, reply, clock).data)
  {
  }

  // ----- Submitting

  lemma SubmissionRecords(runtime: Runtime, run: nat, request: Request, id: nat, outside: Outside)
    requires Sound(runtime) && RecordsOf(runtime, run, request) && Own(run, request.key)
    ensures var after := Submitted(runtime, request, id, outside);
      && Sound(after)
      && RecordsOf(after, run, request)
      && request.key in after.executions
      && Answer(runtime, request, id, outside) == Ok(after.executions[request.key].snapshot)
  {
    SubmitKeepsSound(runtime, request, id, outside);
  }

  /** What sending needs of the rows it starts from. */
  predicate ReadyToSend(before: Data, d: Data, request: Request) {
    && RowsOk(before) && Submittable(before) && before.artifact == None
    && Sending(d) && d.artifact == None && d.id == before.id
    && ExecutionRequest(before) == request && ExecutionRequest(d) == request
  }

  /** The request is unchanged, and an artifact is the given result. */
  predicate Answers(d: Data, request: Request, snapshot: Snapshot, later: Data) {
    && later.id == d.id
    && Submittable(later)
    && ExecutionRequest(later) == request
    && (later.artifact.Some? ==>
          && later.artifact.value.key == request.key
          && snapshot.status == Succeeded
          && snapshot.result == Some(Single(later.artifact.value.external)))
  }

  lemma MovedAnswers(d: Data, request: Request, snapshot: Snapshot, target: Status, clock: Clock)
    requires Executable(d) && ExecutionRequest(d) == request
            && Answers(d, request, snapshot, d.(run := d.run.(status := Executing)))
    requires target in {Executing, Completed, Failed, Cancelled}
    ensures Moved(d, target, clock).Ok? ==> Answers(d, request, snapshot, Moved(d, target, clock).value)
  {
  }

  lemma SyncAnswers(d: Data, request: Request, snapshot: Snapshot, clock: Clock)
    requires Sending(d) && ExecutionRequest(d) == request && d.artifact == None && !TerminalSnapshot(snapshot.status)
    ensures var (at, result) := Synced(d, snapshot.status, clock);
      (result.Ok? ==> Answers(d, request, snapshot, result.value)) && result != Err(ApprovalPayloadMismatch)
  {
    ProgressPairs(d, if snapshot.status == RunQueued then ActionQueued else ActionExecuting);
  }

  lemma StopAnswers(d: Data, request: Request, snapshot: Snapshot, clock: Clock)
    requires Sending(d) && ExecutionRequest(d) == request && d.artifact == None
    ensures var moved := Moved(WithActionStatus(d, ActionFailed), Cancelled, clock);
      (moved.Ok? ==> Answers(d, request, snapshot, moved.value)) && moved != Err(ApprovalPayloadMismatch)
    ensures var moved := Moved(WithFailure(d, snapshot, clock), Failed, clock);
      (moved.Ok? ==> Answers(d, request, snapshot, moved.value)) && moved != Err(ApprovalPayloadMismatch)
  {
    ProgressPairs(d, ActionFailed);
    MovedAnswers(WithActionStatus(d, ActionFailed), request, snapshot, Cancelled, clock);
    MovedAnswers(WithFailure(d, snapshot, clock), request, snapshot, Failed, clock);
  }

  lemma ArtifactAnswers(d: Data, request: Request, snapshot: Snapshot, external: string, clock: Clock)
    requires Sending(d) && ExecutionRequest(d) == request && d.artifact == None
    requires snapshot.status == Succeeded && snapshot.result == Some(Single(external))
    ensures var moved := Moved(WithArtifact(d, request.key, external, clock), Completed, clock);
      && (moved.Ok? ==> Answers(d, request, snapshot, Noted(moved.value, "WORKFLOW_COMPLETED", clock)))
      && moved != Err(ApprovalPayloadMismatch)
  {
    ProgressPairs(d, ActionCompleted);
    MovedAnswers(WithArtifact(d, request.key, external, clock), request, snapshot, Completed, clock);
  }

  lemma SettledRequest(d: Data, request: Request, snapshot: Snapshot, clock: Clock)
    requires Sending(d) && ExecutionRequest(d) == request && d.artifact == None
    ensures var (at, result) := Settled(d, request.key, snapshot, clock);
      (result.Ok? ==> Answers(d, request, snapshot, result.value)) && result != Err(ApprovalPayloadMismatch)
  {
    var known := d.(run := d.run.(executionId := Some(snapshot.id)));
    if !TerminalSnapshot(snapshot.status) {
      SyncAnswers(known, request, snapshot, clock);
    } else if snapshot.status == Succeeded && snapshot.result.Some? {
      if snapshot.result.value.Single? {
        ArtifactAnswers(known, request, snapshot, snapshot.result.value.external, clock);
      }
    } else {
      StopAnswers(known, request, snapshot, clock);
    }
  }

  lemma MarkedProtocol(d: Data, request: Request, runtime: Runtime, reason: RecoverableError, clock: Clock)
    requires Sending(d) && ExecutionRequest(d) == request && d.artifact == None
    requires Sound(runtime) && RecordsOf(runtime, d.id, request)
    ensures ProtocolOk(World(MarkedRecoverable(d, ActionExecuting, reason, clock), runtime, []))
  {
  }

  lemma RolledBackProtocol(before: Data, at: Data, request: Request, runtime: Runtime)
    requires Submittable(before) && before.artifact == None && ExecutionRequest(before) == request
    requires Sound(runtime) && RecordsOf(runtime, before.id, request)
    ensures ProtocolOk(World(RolledBack(before, at), runtime, []))
  {
  }

  lemma AnsweredProtocol(before: Data, d: Data, request: Request, runtime: Runtime, delivery: Delivery, clock: Clock)
    requires ReadyToSend(before, d, request)
    requires Sound(runtime) && RecordsOf(runtime, d.id, request) && request.key in runtime.executions
    requires delivery.Answered? || delivery.Reported?
    ensures var (at, settled) := Settled(d, request.key, Shown(runtime.executions[request.key].snapshot, delivery),
                                         clock);
      && ProtocolOk(World(Ended(before, at, settled).data, runtime, []))
      && settled != Err(ApprovalPayloadMismatch)
  {
    var snapshot := Shown(runtime.executions[request.key].snapshot, delivery);
    SettledRequest(d, request, snapshot, clock);
    RolledBackProtocol(before, Settled(d, request.key, snapshot, clock).0, request, runtime);
  }

  lemma ReceivedProtocol(before: Data, d: Data, request: Request, runtime: Runtime, delivery: Delivery, clock: Clock)
    requires ReadyToSend(before, d, request)
    requires Sound(runtime) && RecordsOf(runtime, d.id, request) && request.key in runtime.executions
    requires !delivery.RequestLost?
    ensures var outcome := Received(before, d, request.key, Ok(runtime.executions[request.key].snapshot), delivery,
                                    clock);
      && ProtocolOk(World(outcome.data, runtime, []))
      && outcome.error != Some(ApprovalPayloadMismatch)
  {
    match delivery
    case ResponseLost(reason) => MarkedProtocol(d, request, runtime, reason, clock);
    case Broken(reached) => RolledBackProtocol(before, d, request, runtime);
    case Answered => AnsweredProtocol(before, d, request, runtime, delivery, clock);
    case Reported(status) => AnsweredProtocol(before, d, request, runtime, delivery, clock);
  }

  /** The submission and everything that can come back from it. */
  lemma SentKeepsProtocol(before: Data, d: Data, request: Request, runtime: Runtime, id: nat, outside: Outside,
                          delivery: Delivery, clock: Clock)
    requires ReadyToSend(before, d, request) && Sound(runtime) && RecordsOf(runtime, d.id, request)
    ensures var (outcome, after) := Sent(before, d, request, runtime, id, outside, delivery, clock);
      && ProtocolOk(World(outcome.data, after, []))
      && outcome.error != Some(ApprovalPayloadMismatch)
  {
    var started := SendStarted(d, clock);
    StartedReady(before, d, request, clock);
    if delivery.RequestLost? {
      MarkedProtocol(started, request, runtime, delivery.reason, clock);
    } else if delivery == Broken(false) {
      RolledBackProtocol(before, started, request, runtime);
    } else {
      SubmissionRecords(runtime, d.id, request, id, outside);
      ReceivedProtocol(before, started, request, Submitted(runtime, request, id, outside), delivery, clock);
    }
  }

  lemma StartedReady(before: Data, d: Data, request: Request, clock: Clock)
    requires ReadyToSend(before, d, request)
    ensures ReadyToSend(before, SendStarted(d, clock), request)
  {
    StartedSending(d, clock);
  }

  lemma BegunKeepsProtocol(w: World, id: nat, outside: Outside, delivery: Delivery, clock: Clock)
    requires WorldOk(w)
    ensures ProtocolOk(ExecutionBegun(w, id, outside, delivery, clock).world)
    ensures ExecutionBegun(w, id, outside, delivery, clock).error != Some(ApprovalPayloadMismatch)
  {
    var d := w.data;
    if HasRecoverableError(d.run) && Executable(d) {
      SentKeepsProtocol(d, d, ExecutionRequest(d), w.runtime, id, outside, delivery, clock);
    }
  }

  lemma ResumedKeepsProtocol(w: World, id: nat, outside: Outside, delivery: Delivery, clock: Clock)
    requires WorldOk(w)
    ensures ProtocolOk(ExecutionResumed(w, id, outside, delivery, clock).world)
    ensures ExecutionResumed(w, id, outside, delivery, clock).error != Some(ApprovalPayloadMismatch)
  {
    var moved := Moved(w.data, Executing, clock);
    if w.waiting != [] && moved.Ok? {
      SentKeepsProtocol(w.data, moved.value, w.waiting[0], w.runtime, id, outside, delivery, clock);
    }
  }

  lemma OtherKeepsProtocol(w: World, request: Request, id: nat, outside: Outside)
    requires WorldOk(w) && !Own(w.data.id, request.key)
    ensures ProtocolOk(w.(runtime := Submitted(w.runtime, request, id, outside)))
  {
    SubmitKeepsSound(w.runtime, request, id, outside);
  }
}
