/** The services that carry out the steps of a run in place: workflow, approvals, execution, cancel. */
module LearnService {
  import opened Wrappers
  import opened WorkflowStates
  import opened AuditTrail
  import opened Payloads
  import opened LocalRuntime
  import opened LearnRun
  import opened LearnLog
  import opened LearnProtocol
  import opened LearnTheorems

  /** A run's rows under its lock, with the audit recorder and the runtime it talks to. */
  class RunSession {
    const id: nat
    const owner: nat
    const recorder: Recorder
    const runtime: LocalRuntimeClient
    var document: Parsing
    var run: Run
    var actions: seq<Action>
    var approvals: seq<Approval>
    var artifact: Option<Artifact>
    var waiting: seq<Request>

    function State(): Data
      reads this, recorder
    {
      Data(id, owner, document, run, actions, approvals, artifact, recorder.State())
    }

    function World(): World
      reads this, recorder, runtime
    {
      LearnRun.World(State(), runtime.State(), waiting)
    }

    constructor (id: nat, owner: nat)
      ensures World() == Start(id, owner) && WorldOk(World())
    {
      this.id := id;
      this.owner := owner;
      recorder := new Recorder();
      runtime := new LocalRuntimeClient();
      document := NotParsed;
      run := Run(Draft, None, None, NoPlan, None, None);
      actions, approvals := [], [];
      artifact := None;
      waiting := [];
      new;
      ReachableOk(id, owner, []);
    }

    method Log(name: string, clock: Clock)
      modifies recorder
      ensures State() == Noted(old(State()), name, clock)
    {
      recorder.Record(id, Note(name), clock);
    }

    /** Aborts the transaction: the rows go back, the recorder's clock does not. */
    method RollBack(before: Data)
      requires before.id == id && before.owner == owner
      modifies this, recorder
      ensures State() == RolledBack(before, old(State()))
      ensures waiting == old(waiting)
    {
      document, run, actions, approvals, artifact := before.document, before.run, before.actions, before.approvals,
        before.artifact;
      recorder.RollBack(before.log.events);
    }

    /** Moves the run along the table when its approvals allow it. */
    method ApplyTransition(target: Status, clock: Clock) returns (error: Option<Error>)
      modifies this, recorder
      ensures var moved := Moved(old(State()), target, clock);
        && error == (if moved.Ok? then None else Some(moved.error))
        && State() == (if moved.Ok? then moved.value else old(State()))
      ensures waiting == old(waiting)
    {
      var change := Change(run.status, target, run.startedAt, clock(|recorder.events|));
      if change.Err? {
        return Some(change.error);
      }
      if target in {AwaitingApproval, Approved, Queued} {
        if actions == [] || ActionIds(actions) != ApprovedActionIds(approvals) {
          return Some(ApprovalRequired);
        }
        if !AllApprovals(approvals, if target == AwaitingApproval then Pending else Granted) {
          return Some(ApprovalRequired);
        }
      }
      recorder.Record(id, StateChanged(change.value.previous, change.value.current), clock);
      run := run.(status := change.value.current, startedAt := change.value.startedAt,
                  completedAt := change.value.completedAt);
      return None;
    }

    /** Moves the run, or rolls the whole call back. */
    method Finish(before: Data, target: Status, clock: Clock) returns (error: Option<Error>)
      requires before.id == id && before.owner == owner
      modifies this, recorder
      ensures Outcome(State(), error) == Ended(before, old(State()), Moved(old(State()), target, clock))
      ensures waiting == old(waiting)
    {
      error := ApplyTransition(target, clock);
      if error.Some? {
        RollBack(before);
      }
    }

    method StartAnalysis(clock: Clock) returns (error: Option<Error>)
      modifies this, recorder
      ensures Effect(World(), error) == OnData(old(World()), AnalysisStarted(old(State()), clock))
    {
      if run.status != Draft {
        return Some(LearnWorkflowInvalidState);
      }
      error := Finish(State(), Analyzing, clock);
      if error.None? {
        Log("DOCUMENT_PARSE_STARTED", clock);
        document := BeingParsed;
      }
    }

    method ClaimSummary(clock: Clock) returns (error: Option<Error>)
      modifies this, recorder
      ensures Effect(World(), error) == OnData(old(World()), SummaryClaimed(old(State()), clock))
      ensures error.None? <==> old(run.status) == Analyzing && old(run.plan) == NoPlan && old(document) == Parsed
      ensures error.None?
              ==> forall again: Clock :: SummaryClaimed(State(), again).error == Some(LearnWorkflowInvalidState)
    {
      if run.status != Analyzing || run.plan != NoPlan || document != Parsed {
        return Some(LearnWorkflowInvalidState);
      }
      run := run.(plan := Summarizing);
      Log("SUMMARY_GENERATION_STARTED", clock);
      return None;
    }

    /** Records a failure of the analysis and ends the run. */
    method Fail(name: string, code: Code, clock: Clock) returns (error: Option<Error>)
      modifies this, recorder
      ensures Outcome(State(), error) == Failing(old(State()), name, code, clock)
      ensures waiting == old(waiting)
    {
      var before := State();
      run := run.(errorCode := Some(Permanent(code)));
      Log(name, clock);
      error := Finish(before, Failed, clock);
    }

    method FinishParsing(clock: Clock) returns (error: Option<Error>)
      modifies this, recorder
      ensures Effect(World(), error) == OnData(old(World()), DocumentParsed(old(State()), clock))
    {
      if document != BeingParsed {
        return Some(NothingToResume);
      }
      document := Parsed;
      Log("DOCUMENT_PARSED", clock);
      return None;
    }

    method FailParsing(code: Code, clock: Clock) returns (error: Option<Error>)
      modifies this, recorder
      ensures Effect(World(), error) == OnData(old(World()), ParsingFailed(old(State()), code, clock))
    {
      if document != BeingParsed || run.status != Analyzing {
        return Some(NothingToResume);
      }
      document := ParseFailed;
      error := Fail("DOCUMENT_PARSE_FAILED", code, clock);
    }

    method FailSummary(code: Code, clock: Clock) returns (error: Option<Error>)
      modifies this, recorder
      ensures Effect(World(), error) == OnData(old(World()), SummaryFailed(old(State()), code, clock))
    {
      if run.plan != Summarizing || run.status != Analyzing {
        return Some(NothingToResume);
      }
      error := Fail("SUMMARY_GENERATION_FAILED", code, clock);
    }

    /** Adds one pending approval for each action. */
    method AddRequests(clock: Clock)
      modifies this`approvals, recorder
      ensures State() == WithRequests(old(State()), |actions|, clock)
    {
      ghost var before := State();
      for k := 0 to |actions|
        invariant actions == before.actions
        invariant State() == WithRequests(before, k, clock)
      {
        approvals := approvals + [Approval(|approvals|, actions[k].id, Pending, actions[k].payload, None, None, None)];
        Log("APPROVAL_REQUESTED", clock);
      }
    }

    /** Asks for approval of every action and lets the run wait for the decisions. */
    method RequestApprovals(before: Data, clock: Clock) returns (error: Option<Error>)
      requires before.id == id && before.owner == owner
      modifies this, recorder
      ensures Outcome(State(), error) == Requested(before, old(State()), clock)
      ensures waiting == old(waiting)
    {
      if run.status != PlanReady {
        RollBack(before);
        return Some(InvalidWorkflowTransition);
      }
      if actions == [] || approvals != [] || exists a :: a in actions && !Open(a) {
        RollBack(before);
        return Some(ApprovalRequired);
      }
      AddRequests(clock);
      error := Finish(before, AwaitingApproval, clock);
    }

    method FinishSummary(text: string, destination: Destination, clock: Clock) returns (error: Option<Error>)
      modifies this, recorder
      ensures Effect(World(), error) == OnData(old(World()), SummaryFinished(old(State()), text, destination, clock))
    {
      if run.plan != Summarizing {
        return Some(NothingToResume);
      }
      var before := State();
      run := run.(plan := Summarized(text));
      Log("SUMMARY_GENERATED", clock);
      error := Finish(before, PlanReady, clock);
      if error.None? {
        ghost var ready := State();
        actions := actions + [Action(|actions|, CreateNotionStudyPage, Page(text, destination), Proposed)];
        Log("PROPOSED_ACTION_CREATED", clock);
        OneAction(ready, Proposal(CreateNotionStudyPage, Page(text, destination)), clock);
        error := RequestApprovals(before, clock);
      }
    }

    /** Replaces the proposed page of a plan that nobody has decided yet. */
    method Edit(text: string, destination: Destination, expected: Payload, clock: Clock) returns (error: Option<Error>)
      modifies this, recorder
      ensures Effect(World(), error)
              == OnData(old(World()), SummaryEdited(old(State()), text, destination, expected, clock))
      ensures error.None? ==>
                && SoleApproval(old(State())) && old(actions[0].payload) == expected
                && SoleApproval(State()) && approvals[0].status == Pending
                && approvals[0].original == actions[0].payload == Page(text, destination)
    {
      if run.status != AwaitingApproval || |actions| != 1 || |approvals| != 1 || approvals[0].status != Pending {
        return Some(LearnWorkflowInvalidState);
      }
      if expected != actions[0].payload {
        return Some(ApprovalPayloadMismatch);
      }
      var payload := Page(text, destination);
      actions := [actions[0].(payload := payload, status := Edited)];
      approvals := [approvals[0].(original := payload)];
      run := run.(plan := Summarized(text));
      Log("ACTION_EDITED", clock);
      return None;
    }

    method UpdateDestination(destination: Destination, clock: Clock) returns (error: Option<Error>)
      modifies this, recorder
      ensures Effect(World(), error) == OnData(old(World()), DestinationUpdated(old(State()), destination, clock))
      ensures AllApprovals(old(approvals), Granted) ==> approvals == old(approvals)
      ensures error.None? ==>
                && SoleApproval(State()) && run == old(run)
                && actions[0].payload == Page(run.plan.text, destination)
                && (approvals[0].status == Pending ==> approvals[0].original == actions[0].payload)
    {
      if run.status !in {AwaitingApproval, Approved} || !run.plan.Summarized? || |actions| != 1 || |approvals| != 1 {
        return Some(LearnWorkflowInvalidState);
      }
      if approvals[0].status !in {Pending, Granted} {
        return Some(LearnWorkflowInvalidState);
      }
      var payload := Page(run.plan.text, destination);
      actions := [actions[0].(payload := payload)];
      if approvals[0].status == Pending {
        approvals := [approvals[0].(original := payload)];
        actions := [actions[0].(status := Edited)];
      }
      Log("NOTION_DESTINATION_SELECTED", clock);
      return None;
    }

    /** Expires every approval that is still pending. */
    method ExpireOthers(now: int, clock: Clock)
      modifies this`approvals, recorder
      ensures State() == WithExpired(old(State()), |old(approvals)|, now, clock)
    {
      ghost var before := State();
      for k := 0 to |approvals|
        invariant |approvals| == |before.approvals|
        invariant State() == WithExpired(before, k, now, clock)
      {
        if approvals[k].status == Pending {
          approvals := approvals[k := approvals[k].(status := Expired, resolvedAt := Some(now))];
          Log("APPROVAL_EXPIRED", clock);
        }
      }
    }

    /** Approves or rejects one proposal; the last approval releases the plan, a rejection ends it. */
    method Resolve(approvalId: nat, payload: Option<Payload>, approve: bool, now: int, clock: Clock)
      returns (error: Option<Error>)
      modifies this, recorder
      ensures Effect(World(), error)
              == OnData(old(World()), Resolved(old(State()), approvalId, payload, approve, now, clock))
    {
      var i := FindApproval(approvals, approvalId);
      if i == |approvals| {
        return Some(ApprovalNotFound);
      }
      if approvals[i].status != Pending {
        return Some(ApprovalAlreadyResolved);
      }
      if run.status != AwaitingApproval {
        return Some(InvalidWorkflowTransition);
      }
      var j := FindAction(actions, approvals[i].actionId);
      if j == |actions| || !Open(actions[j]) {
        return Some(ApprovalPayloadMismatch);
      }
      if approve && (payload != Some(approvals[i].original) || actions[j].payload != approvals[i].original) {
        return Some(ApprovalPayloadMismatch);
      }
      error := Decide(i, j, approve, now, clock);
    }

    method Decide(i: nat, j: nat, approve: bool, now: int, clock: Clock) returns (error: Option<Error>)
      requires i < |approvals| && j < |actions|
      modifies this, recorder
      ensures Outcome(State(), error)
              == Concluded(old(State()), Decided(old(State()), i, j, approve, now, clock), approve, now, clock)
      ensures waiting == old(waiting)
    {
      var before := State();
      if approve {
        approvals := approvals[i := approvals[i].(status := Granted, approved := Some(approvals[i].original),
                                                  resolvedAt := Some(now), resolvedBy := Some(owner))];
        actions := actions[j := actions[j].(status := ActionApproved)];
        Log("ACTION_APPROVED", clock);
      } else {
        approvals := approvals[i := approvals[i].(status := Declined, approved := None,
                                                  resolvedAt := Some(now), resolvedBy := Some(owner))];
        actions := actions[j := actions[j].(status := ActionRejected)];
        Log("ACTION_REJECTED", clock);
      }
      assert State() == Decided(before, i, j, approve, now, clock);
      if !approve {
        ExpireOthers(now, clock);
        error := Finish(before, Rejected, clock);
      } else if AllApprovals(approvals, Granted) {
        error := Finish(before, Approved, clock);
      } else {
        error := None;
      }
    }

    method SetActionStatus(status: ActionStatus)
      modifies this`actions
      ensures State() == WithActionStatus(old(State()), status)
    {
      if actions != [] {
        actions := actions[0 := actions[0].(status := status)];
      }
    }

    /** Records that a submission may or may not have happened. */
    method MarkRecoverable(actionStatus: ActionStatus, reason: RecoverableError, clock: Clock)
      modifies this`run, recorder
      ensures State() == MarkedRecoverable(old(State()), actionStatus, reason, clock)
      ensures HasRecoverableError(run)
      ensures old(run.status) == Executing && actionStatus != ActionQueued ==> run.status == Executing
    {
      run := run.(status := if actionStatus == ActionQueued then Queued else Executing,
                  errorCode := Some(Recoverable(reason)));
      Log("RUNTIME_RECOVERABLE_FAILURE", clock);
    }

    /** Takes over the outcome of an execution. */
    method Settle(before: Data, key: Key, snapshot: Snapshot, clock: Clock) returns (error: Option<Error>)
      requires before.id == id && before.owner == owner
      modifies this, recorder
      ensures var (at, result) := Settled(old(State()), key, snapshot, clock);
        Outcome(State(), error) == Ended(before, at, result)
      ensures waiting == old(waiting)
    {
      error := None;
      run := run.(executionId := Some(snapshot.id));
      if !TerminalSnapshot(snapshot.status) {
        error := Sync(before, snapshot.status, clock);
      } else if snapshot.status == RunCancelled {
        SetActionStatus(ActionFailed);
        error := Finish(before, Cancelled, clock);
      } else if snapshot.status == Succeeded && snapshot.result.Some? {
        if !snapshot.result.value.Single? {
          RollBack(before);
          return Some(RuntimeFailure);
        }
        error := Complete(before, key, snapshot.result.value.external, clock);
      } else {
        error := Abandon(before, snapshot, clock);
      }
    }

    /** Follows an execution that is still under way. */
    method Sync(before: Data, status: ExecutionStatus, clock: Clock) returns (error: Option<Error>)
      requires before.id == id && before.owner == owner
      modifies this, recorder
      ensures var (at, result) := Synced(old(State()), status, clock);
        Outcome(State(), error) == Ended(before, at, result)
      ensures waiting == old(waiting)
    {
      error := None;
      SetActionStatus(if status == RunQueued then ActionQueued else ActionExecuting);
      if run.status != WorkflowStatusFor(status) {
        error := Finish(before, WorkflowStatusFor(status), clock);
      }
      if error.None? {
        Log("RUNTIME_STATUS_SYNCED", clock);
      }
    }

    method Complete(before: Data, key: Key, external: string, clock: Clock) returns (error: Option<Error>)
      requires before.id == id && before.owner == owner
      modifies this, recorder
      ensures var made := WithArtifact(old(State()), key, external, clock);
        var moved := Moved(made, Completed, clock);
        Outcome(State(), error)
        == Ended(before, made, if moved.Ok? then Ok(Noted(moved.value, "WORKFLOW_COMPLETED", clock)) else moved)
      ensures waiting == old(waiting)
    {
      artifact := Some(Artifact(key, external));
      SetActionStatus(ActionCompleted);
      Log("EXTERNAL_ACTION_COMPLETED", clock);
      Log("NOTION_PAGE_CREATED", clock);
      Log("EXTERNAL_ARTIFACT_RECORDED", clock);
      error := Finish(before, Completed, clock);
      if error.None? {
        Log("WORKFLOW_COMPLETED", clock);
      }
    }

    method Abandon(before: Data, snapshot: Snapshot, clock: Clock) returns (error: Option<Error>)
      requires before.id == id && before.owner == owner
      modifies this, recorder
      ensures var failed := WithFailure(old(State()), snapshot, clock);
        Outcome(State(), error) == Ended(before, failed, Moved(failed, Failed, clock))
      ensures waiting == old(waiting)
    {
      SetActionStatus(ActionFailed);
      run := run.(errorCode := Some(Permanent(FailureCode(snapshot))));
      Log("NOTION_PAGE_CREATE_FAILED", clock);
      Log("EXTERNAL_ACTION_FAILED", clock);
      error := Finish(before, Failed, clock);
    }

    /** Submits under the lock and takes over whatever comes back. */
    method Send(before: Data, request: Request, executionId: nat, outside: Outside, delivery: Delivery, clock: Clock)
      returns (error: Option<Error>)
      requires before.id == id && before.owner == owner
      modifies this, recorder, runtime
      ensures (Outcome(State(), error), runtime.State())
              == Sent(before, old(State()), request, old(runtime.State()), executionId, outside, delivery, clock)
      ensures waiting == old(waiting)
    {
      SetActionStatus(ActionExecuting);
      Log("EXTERNAL_EXECUTION_STARTED", clock);
      Log("NOTION_PAGE_CREATE_STARTED", clock);
      if delivery.RequestLost? {
        MarkRecoverable(ActionExecuting, delivery.reason, clock);
        return None;
      }
      if delivery == Broken(false) {
        RollBack(before);
        return Some(RuntimeFailure);
      }
      var answer := runtime.SubmitExecution(request, executionId, outside);
      if answer.Err? {
        RollBack(before);
        return Some(answer.error);
      }
      if delivery.Broken? {
        RollBack(before);
        return Some(RuntimeFailure);
      }
      if delivery.ResponseLost? {
        MarkRecoverable(ActionExecuting, delivery.reason, clock);
        return None;
      }
      error := Settle(before, request.key, Shown(answer.value, delivery), clock);
    }

    /** Executes an approved run up to its first commit, or retries an uncertain submission. */
    method Execute(executionId: nat, outside: Outside, delivery: Delivery, clock: Clock) returns (error: Option<Error>)
      modifies this, recorder, runtime
      ensures Effect(World(), error) == ExecutionBegun(old(World()), executionId, outside, delivery, clock)
    {
      if run.status == Completed {
        return None;
      }
      if run.status != Approved && !HasRecoverableError(run) {
        return Some(LearnWorkflowInvalidState);
      }
      if !Executable(State()) {
        return Some(ApprovalRequired);
      }
      var before := State();
      if artifact.Some? && artifact.value.key == ExecutionKey(before) {
        SetActionStatus(ActionCompleted);
        error := Finish(before, Completed, clock);
      } else if run.status == Approved {
        error := ApplyTransition(Queued, clock);
        if error.None? {
          SetActionStatus(ActionQueued);
          Log("EXECUTION_SUBMITTED", clock);
          waiting := waiting + [ExecutionRequest(before)];
        }
      } else {
        error := Send(before, ExecutionRequest(before), executionId, outside, delivery, clock);
      }
    }

    /** Goes on after the first commit: locks the run again and submits, unless it has moved on. */
    method Resume(executionId: nat, outside: Outside, delivery: Delivery, clock: Clock) returns (error: Option<Error>)
      modifies this, recorder, runtime
      ensures Effect(World(), error) == ExecutionResumed(old(World()), executionId, outside, delivery, clock)
    {
      if waiting == [] {
        return Some(NothingToResume);
      }
      var before, request := State(), waiting[0];
      waiting := waiting[1..];
      error := ApplyTransition(Executing, clock);
      if error.None? {
        error := Send(before, request, executionId, outside, delivery, clock);
      }
    }

    /** Marks queued and running actions as failed. */
    method StopActions()
      modifies this`actions
      ensures State() == old(State()).(actions := WithStopped(old(actions)))
    {
      ghost var before := actions;
      for k := 0 to |actions|
        invariant |actions| == |before|
        invariant forall i :: 0 <= i < |before| ==> actions[i] == if i < k then WithStopped(before)[i] else before[i]
      {
        if actions[k].status in {ActionQueued, ActionExecuting} {
          actions := actions[k := actions[k].(status := ActionFailed)];
        }
      }
      assert actions == WithStopped(before);
    }

    /** Cancels the run, with the runtime's word when the runtime knows it. */
    method Cancel(reply: Option<ExecutionStatus>, clock: Clock) returns (error: Option<Error>)
      modifies this, recorder
      ensures Effect(World(), error) == OnData(old(World()), CancelledBy(old(State()), reply, clock))
    {
      if Terminal(run.status) {
        return None;
      }
      var before := State();
      Log("RUNTIME_CANCEL_REQUESTED", clock);
      if run.executionId.None? {
        error := Finish(before, Cancelled, clock);
        return;
      }
      if reply.None? {
        RollBack(before);
        return Some(RuntimeFailure);
      }
      if reply.value != RunCancelled {
        RollBack(before);
        return Some(InvalidWorkflowTransition);
      }
      StopActions();
      Log("RUNTIME_CANCELLED", clock);
      error := Finish(before, Cancelled, clock);
    }

    method PerformPlanning(step: Step, clock: Clock) returns (error: Option<Error>)
      requires Plans(step)
      modifies this, recorder
      ensures Effect(World(), error) == Next(old(World()), step, clock)
    {
      match step
      case StartAnalysis => error := StartAnalysis(clock);
      case FinishParsing => error := FinishParsing(clock);
      case FailParsing(code) => error := FailParsing(code, clock);
      case ClaimSummary => error := ClaimSummary(clock);
      case FailSummary(code) => error := FailSummary(code, clock);
    }

    method PerformDeciding(step: Step, clock: Clock) returns (error: Option<Error>)
      requires Decides(step)
      modifies this, recorder
      ensures Effect(World(), error) == Next(old(World()), step, clock)
    {
      match step
      case Edit(text, destination, expected) => error := Edit(text, destination, expected, clock);
      case UpdateDestination(destination) => error := UpdateDestination(destination, clock);
      case Resolve(approvalId, payload, approve, now) => error := Resolve(approvalId, payload, approve, now, clock);
    }

    method PerformExecuting(step: Step, clock: Clock) returns (error: Option<Error>)
      requires step.Execute? || step.Resume? || step.Cancel?
      modifies this, recorder, runtime
      ensures Effect(World(), error) == Next(old(World()), step, clock)
    {
      match step
      case Execute(executionId, outside, delivery) => error := Execute(executionId, outside, delivery, clock);
      case Resume(executionId, outside, delivery) => error := Resume(executionId, outside, delivery, clock);
      case Cancel(reply) => error := Cancel(reply, clock);
    }

    /** Serves any call: the rows, the log and the runtime move as the protocol says, and what holds of
        them in every reachable world keeps holding. */
    method Perform(step: Step, clock: Clock) returns (error: Option<Error>)
      requires WorldOk(World())
      requires Plans(step) || Decides(step) || step.FinishSummary? || step.Execute? || step.Resume? || step.Cancel?
      modifies this, recorder, runtime
      ensures Effect(World(), error) == Next(old(World()), step, clock)
      ensures WorldOk(World())
    {
      StepOk(World(), step, clock);
      if Plans(step) {
        error := PerformPlanning(step, clock);
      } else if Decides(step) {
        error := PerformDeciding(step, clock);
      } else if step.FinishSummary? {
        error := FinishSummary(step.text, step.destination, clock);
      } else {
        error := PerformExecuting(step, clock);
      }
    }
  }

  lemma OneAction(d: Data, proposal: Proposal, clock: Clock)
    ensures WithActions(d, [proposal], clock)
            == Noted(d.(actions := d.actions + [Action(|d.actions|, proposal.operation, proposal.payload, Proposed)]),
                     "PROPOSED_ACTION_CREATED", clock)
  {
    assert [proposal][..0] == [];
    assert WithActions(d, [], clock) == d;
  }
}
