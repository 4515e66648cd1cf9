/** The rows of one workflow run and every committed step that changes them. A step takes the row
    lock, works, and commits or rolls back. */
module LearnRun {
  import opened Wrappers
  import opened WorkflowStates
  import opened AuditTrail
  import opened Payloads
  import opened LocalRuntime

  datatype ActionStatus =
    | Proposed | Edited | ActionApproved | ActionRejected
    | ActionQueued | ActionExecuting | ActionCompleted | ActionFailed

  datatype ApprovalStatus = Pending | Granted | Declined | Expired

  datatype RecoverableError = RuntimeRequestTimeout | RuntimeUnavailable | RuntimeRateLimited

  datatype ErrorCode = Recoverable(reason: RecoverableError) | Permanent(code: Code)

  datatype Plan = NoPlan | Summarizing | Summarized(text: string)

  datatype Parsing = NotParsed | BeingParsed | Parsed | ParseFailed

  datatype Run = Run(status: Status, startedAt: Option<int>, completedAt: Option<int>, plan: Plan,
                     executionId: Option<nat>, errorCode: Option<ErrorCode>)

  datatype Action = Action(id: nat, operation: Operation, payload: Payload, status: ActionStatus)

  datatype Approval = Approval(id: nat, actionId: nat, status: ApprovalStatus, original: Payload,
                               approved: Option<Payload>, resolvedAt: Option<int>, resolvedBy: Option<nat>)

  datatype Artifact = Artifact(key: Key, external: string)

  datatype Proposal = Proposal(operation: Operation, payload: Payload)

  /** A run with its document, actions, approvals, artifact and audit log. */
  datatype Data = Data(id: nat, owner: nat, document: Parsing, run: Run, actions: seq<Action>,
                       approvals: seq<Approval>, artifact: Option<Artifact>, log: Log)

  /** The rows after a call, and the error it raised. */
  datatype Outcome = Outcome(data: Data, error: Option<Error>)

  function NewRun(id: nat, owner: nat): Data {
    Data(id, owner, NotParsed, Run(Draft, None, None, NoPlan, None, None), [], [], None, Log(None, []))
  }

  function Noted(d: Data, name: string, clock: Clock): Data {
    d.(log := Recorded(d.log, d.id, Note(name), clock))
  }

  /** An aborted call leaves the rows as they were; only the clock's watermark has moved. */
  function RolledBack(before: Data, at: Data): Data {
    before.(log := Log(at.log.last, before.log.events))
  }

  function Refused(d: Data, error: Error): Outcome {
    Outcome(d, Some(error))
  }

  /** Ends a call: commits its result, or rolls back from where it failed. */
  function Ended(before: Data, at: Data, result: Result<Data, Error>): Outcome {
    match result
    case Ok(d) => Outcome(d, None)
    case Err(error) => Outcome(RolledBack(before, at), Some(error))
  }

  // ----- Changing state

  function ActionIds(actions: seq<Action>): set<nat> {
    set a | a in actions :: a.id
  }

  function ApprovedActionIds(approvals: seq<Approval>): set<nat> {
    set a | a in approvals :: a.actionId
  }

  predicate AllApprovals(approvals: seq<Approval>, status: ApprovalStatus) {
    forall a :: a in approvals ==> a.status == status
  }

  /** The approvals that a state asks for. */
  predicate ApprovalsAllow(d: Data, target: Status) {
    target in {AwaitingApproval, Approved, Queued} ==>
      && d.actions != []
      && ActionIds(d.actions) == ApprovedActionIds(d.approvals)
      && AllApprovals(d.approvals, if target == AwaitingApproval then Pending else Granted)
  }

  function Moved(d: Data, target: Status, clock: Clock): Result<Data, Error> {
    var change := Change(d.run.status, target, d.run.startedAt, clock(|d.log.events|));
    if change.Err? then Err(change.error)
    else if !ApprovalsAllow(d, target) then Err(ApprovalRequired)
    else Ok(d.(run := d.run.(status := change.value.current,
                             startedAt := change.value.startedAt,
                             completedAt := change.value.completedAt),
               log := Recorded(d.log, d.id, StateChanged(d.run.status, target), clock)))
  }

  // ----- Planning

  function AnalysisStarted(d: Data, clock: Clock): Outcome {
    if d.run.status != Draft then Refused(d, LearnWorkflowInvalidState)
    else
      var moved := Moved(d, Analyzing, clock);
      Ended(d, d,
            if moved.Err? then moved
            else Ok(Noted(moved.value, "DOCUMENT_PARSE_STARTED", clock).(document := BeingParsed)))
  }

  function DocumentParsed(d: Data, clock: Clock): Outcome {
    if d.document != BeingParsed then Refused(d, NothingToResume)
    else Outcome(Noted(d, "DOCUMENT_PARSED", clock).(document := Parsed), None)
  }

  function Failing(d: Data, name: string, code: Code, clock: Clock): Outcome {
    var noted := Noted(d.(run := d.run.(errorCode := Some(Permanent(code)))), name, clock);
    Ended(d, noted, Moved(noted, Failed, clock))
  }

  function ParsingFailed(d: Data, code: Code, clock: Clock): Outcome {
    if d.document != BeingParsed || d.run.status != Analyzing then Refused(d, NothingToResume)
    else Failing(d.(document := ParseFailed), "DOCUMENT_PARSE_FAILED", code, clock)
  }

  function SummaryClaimed(d: Data, clock: Clock): Outcome {
    if d.run.status != Analyzing || d.run.plan != NoPlan || d.document != Parsed
    then Refused(d, LearnWorkflowInvalidState)
    else Outcome(Noted(d.(run := d.run.(plan := Summarizing)), "SUMMARY_GENERATION_STARTED", clock), None)
  }

  function SummaryFailed(d: Data, code: Code, clock: Clock): Outcome {
    if d.run.plan != Summarizing || d.run.status != Analyzing then Refused(d, NothingToResume)
    else Failing(d, "SUMMARY_GENERATION_FAILED", code, clock)
  }

  function WithActions(d: Data, proposals: seq<Proposal>, clock: Clock): (made: Data)
    ensures made.id == d.id
  {
    if proposals == [] then d
    else
      var last := proposals[|proposals| - 1];
      var before := WithActions(d, proposals[..|proposals| - 1], clock);
      Noted(before.(actions := before.actions + [Action(|before.actions|, last.operation, last.payload, Proposed)]),
            "PROPOSED_ACTION_CREATED", clock)
  }

  predicate Open(action: Action) {
    action.status in {Proposed, Edited}
  }

  /** Approval requests for the first count actions. */
  function WithRequests(d: Data, count: nat, clock: Clock): (made: Data)
    requires count <= |d.actions|
    ensures made.id == d.id
  {
    if count == 0 then d
    else
      var before := WithRequests(d, count - 1, clock);
      var action := d.actions[count - 1];
      Noted(before.(approvals := before.approvals
        + [Approval(|before.approvals|, action.id, Pending, action.payload, None, None, None)]),
            "APPROVAL_REQUESTED", clock)
  }

  /** Asks for the approvals of a plan within a call that began at before. */
  function Requested(before: Data, d: Data, clock: Clock): Outcome {
    if d.run.status != PlanReady then Outcome(RolledBack(before, d), Some(InvalidWorkflowTransition))
    else if d.actions == [] || d.approvals != [] || exists a :: a in d.actions && !Open(a)
    then Outcome(RolledBack(before, d), Some(ApprovalRequired))
    else
      var made := WithRequests(d, |d.actions|, clock);
      Ended(before, made, Moved(made, AwaitingApproval, clock))
  }

  /** Finishes the plan: the actions and their approval requests appear in one commit. */
  function Planned(d: Data, text: string, proposals: seq<Proposal>, clock: Clock): Outcome {
    var summarized := Noted(d.(run := d.run.(plan := Summarized(text))), "SUMMARY_GENERATED", clock);
    var ready := Moved(summarized, PlanReady, clock);
    if ready.Err? then Outcome(RolledBack(d, summarized), Some(ready.error))
    else Requested(d, WithActions(ready.value, proposals, clock), clock)
  }

  function Page(text: string, destination: Destination): Payload {
    Payload(StudyPage(text), destination)
  }

  function SummaryFinished(d: Data, text: string, destination: Destination, clock: Clock): Outcome {
    if d.run.plan != Summarizing then Refused(d, NothingToResume)
    else Planned(d, text, [Proposal(CreateNotionStudyPage, Page(text, destination))], clock)
  }

  /** The planning step of another workflow, which may propose several actions. */
  function OtherPlanFinished(d: Data, text: string, proposals: seq<Proposal>, clock: Clock): Outcome {
    Planned(d, text, proposals, clock)
  }

  // ----- Deciding

  predicate SoleApproval(d: Data) {
    |d.actions| == 1 && |d.approvals| == 1
  }

  function Rewritten(d: Data, payload: Payload): Data
    requires SoleApproval(d)
  {
    d.(actions := [d.actions[0].(payload := payload, status := Edited)],
       approvals := [d.approvals[0].(original := payload)])
  }

  function SummaryEdited(d: Data, text: string, destination: Destination, expected: Payload, clock: Clock): Outcome {
    if d.run.status != AwaitingApproval || !SoleApproval(d) || d.approvals[0].status != Pending
    then Refused(d, LearnWorkflowInvalidState)
    else if expected != d.actions[0].payload then Refused(d, ApprovalPayloadMismatch)
    else
      var rewritten := Rewritten(d, Page(text, destination)).(run := d.run.(plan := Summarized(text)));
      Outcome(Noted(rewritten, "ACTION_EDITED", clock), None)
  }

  function DestinationUpdated(d: Data, destination: Destination, clock: Clock): Outcome {
    if d.run.status !in {AwaitingApproval, Approved} || !d.run.plan.Summarized? || !SoleApproval(d)
       || d.approvals[0].status !in {Pending, Granted}
    then Refused(d, LearnWorkflowInvalidState)
    else
      var payload := Page(d.run.plan.text, destination);
      Outcome(Noted(if d.approvals[0].status == Pending then Rewritten(d, payload)
                    else d.(actions := [d.actions[0].(payload := payload)]),
                    "NOTION_DESTINATION_SELECTED", clock), None)
  }

  function ExpiredOne(approval: Approval, now: int): Approval {
    if approval.status == Pending then approval.(status := Expired, resolvedAt := Some(now)) else approval
  }

  /** Expires the pending ones among the first count approvals. */
  function WithExpired(d: Data, count: nat, now: int, clock: Clock): (made: Data)
    requires count <= |d.approvals|
    ensures made.id == d.id && |made.approvals| == |d.approvals|
  {
    if count == 0 then d
    else
      var before := WithExpired(d, count - 1, now, clock);
      if before.approvals[count - 1].status != Pending then before
      else Noted(before.(approvals := before.approvals[count - 1 := ExpiredOne(before.approvals[count - 1], now)]),
                 "APPROVAL_EXPIRED", clock)
  }

  /** The row with an id, or the length of the table. */
  function FindApproval(approvals: seq<Approval>, id: nat): (i: nat)
    ensures i <= |approvals|
    ensures i < |approvals| ==> approvals[i].id == id
    ensures forall k :: 0 <= k < i ==> approvals[k].id != id
  {
    if approvals == [] || approvals[0].id == id then 0 else 1 + FindApproval(approvals[1..], id)
  }

  function FindAction(actions: seq<Action>, id: nat): (j: nat)
    ensures j <= |actions|
    ensures j < |actions| ==> actions[j].id == id
    ensures forall k :: 0 <= k < j ==> actions[k].id != id
  {
    if actions == [] || actions[0].id == id then 0 else 1 + FindAction(actions[1..], id)
  }

  /** The decision itself, on the approval and its action. */
  function Decided(d: Data, i: nat, j: nat, approve: bool, now: int, clock: Clock): Data
    requires i < |d.approvals| && j < |d.actions|
  {
    var approval := d.approvals[i].(status := if approve then Granted else Declined,
                                    approved := if approve then Some(d.approvals[i].original) else None,
                                    resolvedAt := Some(now), resolvedBy := Some(d.owner));
    var action := d.actions[j].(status := if approve then ActionApproved else ActionRejected);
    Noted(d.(approvals := d.approvals[i := approval], actions := d.actions[j := action]),
          if approve then "ACTION_APPROVED" else "ACTION_REJECTED", clock)
  }

  /** What a decision does to the rest of the plan: a rejection ends it, the last approval releases it. */
  function Concluded(before: Data, decided: Data, approve: bool, now: int, clock: Clock): Outcome {
    if !approve then
      var expired := WithExpired(decided, |decided.approvals|, now, clock);
      Ended(before, expired, Moved(expired, Rejected, clock))
    else if AllApprovals(decided.approvals, Granted) then
      Ended(before, decided, Moved(decided, Approved, clock))
    else Outcome(decided, None)
  }

  /** Resolves the approval at i, whose action is at j. */
  function ResolvedAt(d: Data, i: nat, j: nat, payload: Option<Payload>, approve: bool, now: int, clock: Clock): Outcome
    requires i < |d.approvals| && j <= |d.actions|
  {
    if d.approvals[i].status != Pending then Refused(d, ApprovalAlreadyResolved)
    else if d.run.status != AwaitingApproval then Refused(d, InvalidWorkflowTransition)
    else if j == |d.actions| || !Open(d.actions[j]) then Refused(d, ApprovalPayloadMismatch)
    else if approve && (payload != Some(d.approvals[i].original) || d.actions[j].payload != d.approvals[i].original)
    then Refused(d, ApprovalPayloadMismatch)
    else Concluded(d, Decided(d, i, j, approve, now, clock), approve, now, clock)
  }

  function Resolved(d: Data, approvalId: nat, payload: Option<Payload>, approve: bool, now: int,
                    clock: Clock): Outcome {
    var i := FindApproval(d.approvals, approvalId);
    if i == |d.approvals| then Refused(d, ApprovalNotFound)
    else ResolvedAt(d, i, FindAction(d.actions, d.approvals[i].actionId), payload, approve, now, clock)
  }

  // ----- Executing

  /** What became of a submission: lost on the way out, lost on the way back, answered with the
      record's own snapshot, answered with a status the runtime has so far, or failed otherwise. */
  datatype Delivery =
    | RequestLost(reason: RecoverableError)
    | ResponseLost(reason: RecoverableError)
    | Answered
    | Reported(status: ExecutionStatus)
    | Broken(reached: bool)

  /** The rows, the runtime, and the requests of executions that wait for their second lock. Such an
      execution reads the run again, but keeps the action and approval it read at its first lock. */
  datatype World = World(data: Data, runtime: Runtime, waiting: seq<Request>)

  datatype Effect = Effect(world: World, error: Option<Error>)

  predicate HasRecoverableError(run: Run) {
    run.status in {Queued, Executing} && run.errorCode.Some? && run.errorCode.value.Recoverable?
  }

  /** The conditions on actions and approvals under which an execution may start. */
  predicate Executable(d: Data) {
    && SoleApproval(d)
    && d.actions[0].operation == CreateNotionStudyPage
    && d.approvals[0].status == Granted
    && d.approvals[0].approved.Some?
  }

  function ExecutionKey(d: Data): Key
    requires SoleApproval(d)
  {
    LearnKey(d.id, d.approvals[0].id)
  }

  function ExecutionRequest(d: Data): Request
    requires Executable(d)
  {
    Request(d.actions[0].operation, Overlay(d.approvals[0].approved.value, d.actions[0].payload), ExecutionKey(d))
  }

  function WithActionStatus(d: Data, status: ActionStatus): Data {
    if d.actions == [] then d else d.(actions := d.actions[0 := d.actions[0].(status := status)])
  }

  /** Writes the status directly, outside the table of transitions. */
  function MarkedRecoverable(d: Data, actionStatus: ActionStatus, reason: RecoverableError, clock: Clock): Data {
    Noted(d.(run := d.run.(status := if actionStatus == ActionQueued then Queued else Executing,
                           errorCode := Some(Recoverable(reason)))),
          "RUNTIME_RECOVERABLE_FAILURE", clock)
  }

  function TerminalSnapshot(status: ExecutionStatus): bool {
    status in {Succeeded, Partial, RunFailed, RunCancelled}
  }

  function WorkflowStatusFor(status: ExecutionStatus): Status {
    match status
    case RunQueued => Queued
    case Running => Executing
    case Succeeded => Completed
    case Partial => PartiallyCompleted
    case RunFailed => Failed
    case RunCancelled => Cancelled
  }

  /** The code of a snapshot without success. */
  function FailureCode(snapshot: Snapshot): Code {
    if snapshot.code.Some? then snapshot.code.value else EXECUTION_FAILED
  }

  function WithArtifact(d: Data, key: Key, external: string, clock: Clock): Data {
    var made := WithActionStatus(d, ActionCompleted).(artifact := Some(Artifact(key, external)));
    Noted(Noted(Noted(made, "EXTERNAL_ACTION_COMPLETED", clock), "NOTION_PAGE_CREATED", clock),
          "EXTERNAL_ARTIFACT_RECORDED", clock)
  }

  function WithFailure(d: Data, snapshot: Snapshot, clock: Clock): Data {
    var failed := WithActionStatus(d, ActionFailed);
    Noted(Noted(failed.(run := failed.run.(errorCode := Some(Permanent(FailureCode(snapshot))))),
                "NOTION_PAGE_CREATE_FAILED", clock),
          "EXTERNAL_ACTION_FAILED", clock)
  }

  /** Follows an execution that is still under way. */
  function Synced(d: Data, status: ExecutionStatus, clock: Clock): (Data, Result<Data, Error>) {
    var synced := WithActionStatus(d, if status == RunQueued then ActionQueued else ActionExecuting);
    var target := WorkflowStatusFor(status);
    var moved := if synced.run.status != target then Moved(synced, target, clock) else Ok(synced);
    (synced, if moved.Ok? then Ok(Noted(moved.value, "RUNTIME_STATUS_SYNCED", clock)) else moved)
  }

  /** Takes over the snapshot of an execution; also says where it failed. */
  function Settled(d: Data, key: Key, snapshot: Snapshot, clock: Clock): (Data, Result<Data, Error>) {
    var known := d.(run := d.run.(executionId := Some(snapshot.id)));
    if !TerminalSnapshot(snapshot.status) then Synced(known, snapshot.status, clock)
    else if snapshot.status == RunCancelled then
      var stopped := WithActionStatus(known, ActionFailed);
      (stopped, Moved(stopped, Cancelled, clock))
    else if snapshot.status == Succeeded && snapshot.result.Some? then
      if !snapshot.result.value.Single? then (known, Err(RuntimeFailure))
      else
        var made := WithArtifact(known, key, snapshot.result.value.external, clock);
        var moved := Moved(made, Completed, clock);
        (made, if moved.Ok? then Ok(Noted(moved.value, "WORKFLOW_COMPLETED", clock)) else moved)
    else
      var failed := WithFailure(known, snapshot, clock);
      (failed, Moved(failed, Failed, clock))
  }

  /** The snapshot the caller ends up with. */
  function Shown(snapshot: Snapshot, delivery: Delivery): Snapshot {
    if delivery.Reported? then Snapshot(snapshot.id, delivery.status, None, None) else snapshot
  }

  function SendStarted(d: Data, clock: Clock): Data {
    Noted(Noted(WithActionStatus(d, ActionExecuting), "EXTERNAL_EXECUTION_STARTED", clock),
          "NOTION_PAGE_CREATE_STARTED", clock)
  }

  /** What a submission that reached the runtime does to the rows. They roll back to what they were
      at the lock when the call fails. */
  function Received(before: Data, started: Data, key: Key, answer: Result<Snapshot, Error>, delivery: Delivery,
                    clock: Clock): Outcome {
    match answer
    case Err(error) => Outcome(RolledBack(before, started), Some(error))
    case Ok(snapshot) =>
      if delivery.Broken? then Outcome(RolledBack(before, started), Some(RuntimeFailure))
      else if delivery.ResponseLost?
      then Outcome(MarkedRecoverable(started, ActionExecuting, delivery.reason, clock), None)
      else
        var (at, settled) := Settled(started, key, Shown(snapshot, delivery), clock);
        Ended(before, at, settled)
  }

  /** Submits the approved payload and takes over what comes back; the runtime keeps what reached it. */
  function Sent(before: Data, d: Data, request: Request, runtime: Runtime,
                id: nat, outside: Outside, delivery: Delivery, clock: Clock): (Outcome, Runtime)
  {
    var started := SendStarted(d, clock);
    if delivery.RequestLost?
    then (Outcome(MarkedRecoverable(started, ActionExecuting, delivery.reason, clock), None), runtime)
    else if delivery == Broken(false) then (Outcome(RolledBack(before, started), Some(RuntimeFailure)), runtime)
    else (Received(before, started, request.key, Answer(runtime, request, id, outside), delivery, clock),
          Submitted(runtime, request, id, outside))
  }

  /** Takes the first lock: queues an approved run, or retries one whose submission is uncertain. */
  function ExecutionBegun(w: World, id: nat, outside: Outside, delivery: Delivery, clock: Clock): Effect {
    var d := w.data;
    if d.run.status == Completed then Effect(w, None)
    else if d.run.status != Approved && !HasRecoverableError(d.run) then Effect(w, Some(LearnWorkflowInvalidState))
    else if !Executable(d) then Effect(w, Some(ApprovalRequired))
    else if d.artifact.Some? && d.artifact.value.key == ExecutionKey(d) then
      var done := WithActionStatus(d, ActionCompleted);
      var ended := Ended(d, done, Moved(done, Completed, clock));
      Effect(w.(data := ended.data), ended.error)
    else if d.run.status == Approved then
      var moved := Moved(d, Queued, clock);
      if moved.Err? then Effect(w, Some(moved.error))
      else Effect(w.(data := Noted(WithActionStatus(moved.value, ActionQueued), "EXECUTION_SUBMITTED", clock),
                     waiting := w.waiting + [ExecutionRequest(d)]), None)
    else
      var (outcome, runtime) := Sent(d, d, ExecutionRequest(d), w.runtime, id, outside, delivery, clock);
      Effect(w.(data := outcome.data, runtime := runtime), outcome.error)
  }

  /** Takes the second lock. */
  function ExecutionResumed(w: World, id: nat, outside: Outside, delivery: Delivery, clock: Clock): Effect {
    if w.waiting == [] then Effect(w, Some(NothingToResume))
    else
      var rest := w.waiting[1..];
      var moved := Moved(w.data, Executing, clock);
      if moved.Err? then Effect(w.(waiting := rest), Some(moved.error))
      else
        var (outcome, runtime) := Sent(w.data, moved.value, w.waiting[0], w.runtime, id, outside, delivery, clock);
        Effect(World(outcome.data, runtime, rest), outcome.error)
  }

  function WithStopped(actions: seq<Action>): seq<Action> {
    seq(|actions|, i requires 0 <= i < |actions| =>
      if actions[i].status in {ActionQueued, ActionExecuting} then actions[i].(status := ActionFailed) else actions[i])
  }

  /** Cancels a run; one known to the runtime only with the runtime's word (None: the call failed). */
  function CancelledBy(d: Data, reply: Option<ExecutionStatus>, clock: Clock): Outcome {
    if Terminal(d.run.status) then Outcome(d, None)
    else
      var asked := Noted(d, "RUNTIME_CANCEL_REQUESTED", clock);
      if d.run.executionId.None? then Ended(d, asked, Moved(asked, Cancelled, clock))
      else if reply.None? then Outcome(RolledBack(d, asked), Some(RuntimeFailure))
      else if reply.value != RunCancelled then Outcome(RolledBack(d, asked), Some(InvalidWorkflowTransition))
      else
        var stopped := Noted(asked.(actions := WithStopped(d.actions)), "RUNTIME_CANCELLED", clock);
        Ended(d, stopped, Moved(stopped, Cancelled, clock))
  }

  // ----- All steps

  datatype Step =
    | StartAnalysis
    | FinishParsing
    | FailParsing(code: Code)
    | ClaimSummary
    | FailSummary(code: Code)
    | FinishSummary(text: string, destination: Destination)
    | FinishOtherPlan(text: string, proposals: seq<Proposal>)
    | Edit(text: string, destination: Destination, expected: Payload)
    | UpdateDestination(destination: Destination)
    | Resolve(approvalId: nat, payload: Option<Payload>, approve: bool, now: int)
    | Execute(id: nat, outside: Outside, delivery: Delivery)
    | Resume(id: nat, outside: Outside, delivery: Delivery)
    | Cancel(reply: Option<ExecutionStatus>)
    | OtherSubmission(request: Request, id: nat, outside: Outside)
    | OtherEvent(run: nat, kind: Kind)

  function OnData(w: World, outcome: Outcome): Effect {
    Effect(w.(data := outcome.data), outcome.error)
  }

  /** One committed or refused step. The last two are steps of other runs on the shared runtime and
      the shared log. */
  function Next(w: World, step: Step, clock: Clock): Effect {
    var d := w.data;
    match step
    case StartAnalysis => OnData(w, AnalysisStarted(d, clock))
    case FinishParsing => OnData(w, DocumentParsed(d, clock))
    case FailParsing(code) => OnData(w, ParsingFailed(d, code, clock))
    case ClaimSummary => OnData(w, SummaryClaimed(d, clock))
    case FailSummary(code) => OnData(w, SummaryFailed(d, code, clock))
    case FinishSummary(text, destination) => OnData(w, SummaryFinished(d, text, destination, clock))
    case FinishOtherPlan(text, proposals) => OnData(w, OtherPlanFinished(d, text, proposals, clock))
    case Edit(text, destination, expected) => OnData(w, SummaryEdited(d, text, destination, expected, clock))
    case UpdateDestination(destination) => OnData(w, DestinationUpdated(d, destination, clock))
    case Resolve(approvalId, payload, approve, now) => OnData(w, Resolved(d, approvalId, payload, approve, now, clock))
    case Execute(id, outside, delivery) => ExecutionBegun(w, id, outside, delivery, clock)
    case Resume(id, outside, delivery) => ExecutionResumed(w, id, outside, delivery, clock)
    case Cancel(reply) => OnData(w, CancelledBy(d, reply, clock))
    case OtherSubmission(request, id, outside) =>
      if request.key.LearnKey? && request.key.run == d.id then Effect(w, Some(NothingToResume))
      else Effect(w.(runtime := Submitted(w.runtime, request, id, outside)), None)
    case OtherEvent(run, kind) =>
      if run == d.id then Effect(w, Some(NothingToResume))
      else Effect(w.(data := d.(log := Recorded(d.log, run, kind, clock))), None)
  }

  datatype Timed = Timed(step: Step, clock: Clock)

  /** The world after a run of steps, in whatever order the calls interleave. */
  function After(w: World, steps: seq<Timed>): World {
    if steps == [] then w
    else
      var last := steps[|steps| - 1];
      Next(After(w, steps[..|steps| - 1]), last.step, last.clock).world
  }

  function Start(id: nat, owner: nat): World {
    World(NewRun(id, owner), FRESH, [])
  }
}
