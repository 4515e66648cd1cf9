/** What each step makes of a run: the whole row after it, in every reachable world. */
module LearnOutcomes {
  import opened Wrappers
  import opened WorkflowStates
  import opened AuditTrail
  import opened Payloads
  import opened LocalRuntime
  import opened LearnRun
  import opened LearnRows
  import opened LearnProtocol
  import opened LearnTheorems

  /** Nothing but the log's clock has moved. */
  predicate Unchanged(d: Data, later: Data) {
    later == d.(log := later.log) && later.log.events == d.log.events
  }

  // ----- Sending

  /** The step submits: a retry, or an execution that waits and still finds its run queued. */
  predicate Sends(w: World, step: Step) {
    || (step.Execute? && HasRecoverableError(w.data.run))
    || (step.Resume? && w.waiting != [] && w.data.run.status == Queued)
  }

  /** The run has this status, execution and error, its action this status; no decision has changed. */
  predicate Became(d: Data, later: Data, status: Status, executionId: Option<nat>, errorCode: Option<ErrorCode>,
                   artifact: Option<Artifact>, action: ActionStatus)
  {
    && later.run == d.run.(status := status, completedAt := later.run.completedAt, executionId := executionId,
                           errorCode := errorCode)
    && d.actions != [] && later.actions == [d.actions[0].(status := action)]
    && later == d.(run := later.run, actions := later.actions, artifact := artifact, log := later.log)
  }

  predicate Publishes(d: Data, later: Data, snapshot: Snapshot) {
    && snapshot.result.Some? && snapshot.result.value.Single?
    && Became(d, later, Completed, Some(snapshot.id), d.run.errorCode,
              Some(Artifact(LearnKey(d.id, 0), snapshot.result.value.external)), ActionCompleted)
  }

  /** What becomes of a run whose execution has this snapshot. */
  predicate Follows(d: Data, later: Data, snapshot: Snapshot) {
    if snapshot.status == Running then
      Became(d, later, Executing, Some(snapshot.id), d.run.errorCode, None, ActionExecuting)
    else if snapshot.status == RunCancelled then
      Became(d, later, Cancelled, Some(snapshot.id), d.run.errorCode, None, ActionFailed)
    else if snapshot.status == Succeeded && snapshot.result.Some? then Publishes(d, later, snapshot)
    else
      Became(d, later, Failed, Some(snapshot.id),
             Some(Permanent(if snapshot.code.Some? then snapshot.code.value else "EXECUTION_FAILED")), None,
             ActionFailed)
  }

  /** The rows that sending starts from: those of the lock, moved to executing. */
  predicate SameButState(before: Data, d: Data) {
    && d == before.(run := d.run, actions := d.actions, log := d.log)
    && d.run == before.run.(status := Executing, completedAt := d.run.completedAt)
    && |before.actions| == 1 && |d.actions| == 1
    && d.actions[0] == before.actions[0].(status := d.actions[0].status)
    && before.artifact == None
  }

  lemma EndsAs(d: Data, target: Status, clock: Clock)
    requires d.run.status == Executing && target in {Completed, Failed, Cancelled}
    ensures var moved := Moved(d, target, clock);
      && moved.Ok?
      && moved.value == d.(run := d.run.(status := target, completedAt := moved.value.run.completedAt),
                           log := moved.value.log)
  {
  }

  lemma PublishingFollows(before: Data, d: Data, snapshot: Snapshot, clock: Clock)
    requires SameButState(before, d) && d.run.status == Executing
    requires snapshot.status == Succeeded && snapshot.result.Some? && snapshot.result.value.Single?
    ensures var settled := Settled(d, LearnKey(d.id, 0), snapshot, clock).1;
      settled.Ok? && Publishes(before, settled.value, snapshot)
  {
    var known := d.(run := d.run.(executionId := Some(snapshot.id)));
    EndsAs(WithArtifact(known, LearnKey(d.id, 0), snapshot.result.value.external, clock), Completed, clock);
  }

  lemma StoppingFollows(before: Data, d: Data, snapshot: Snapshot, clock: Clock)
    requires SameButState(before, d) && d.run.status == Executing && snapshot.status == RunCancelled
    ensures var settled := Settled(d, LearnKey(d.id, 0), snapshot, clock).1;
      settled.Ok? && Follows(before, settled.value, snapshot)
  {
    var known := d.(run := d.run.(executionId := Some(snapshot.id)));
    EndsAs(WithActionStatus(known, ActionFailed), Cancelled, clock);
  }

  lemma FailingFollows(before: Data, d: Data, snapshot: Snapshot, clock: Clock)
    requires SameButState(before, d) && d.run.status == Executing
    requires snapshot.status in {Partial, RunFailed} || (snapshot.status == Succeeded && snapshot.result.None?)
    ensures var settled := Settled(d, LearnKey(d.id, 0), snapshot, clock).1;
      settled.Ok? && Follows(before, settled.value, snapshot)
  {
    var known := d.(run := d.run.(executionId := Some(snapshot.id)));
    EndsAs(WithFailure(known, snapshot, clock), Failed, clock);
  }

  lemma SyncingFollows(before: Data, d: Data, snapshot: Snapshot, clock: Clock)
    requires SameButState(before, d) && d.run.status == Executing && snapshot.status in {RunQueued, Running}
    ensures var settled := Settled(d, LearnKey(d.id, 0), snapshot, clock).1;
      if snapshot.status == RunQueued then settled == Err(InvalidWorkflowTransition)
      else settled.Ok? && Follows(before, settled.value, snapshot)
  {
  }

  lemma SettledFollows(before: Data, d: Data, snapshot: Snapshot, clock: Clock)
    requires SameButState(before, d) && d.run.status == Executing
    requires snapshot.status == Succeeded && snapshot.result.Some? ==> snapshot.result.value.Single?
    ensures var settled := Settled(d, LearnKey(d.id, 0), snapshot, clock).1;
      if snapshot.status == RunQueued then settled == Err(InvalidWorkflowTransition)
      else settled.Ok? && Follows(before, settled.value, snapshot)
  {
    if snapshot.status in {RunQueued, Running} {
      SyncingFollows(before, d, snapshot, clock);
    } else if snapshot.status == RunCancelled {
      StoppingFollows(before, d, snapshot, clock);
    } else if snapshot.status == Succeeded && snapshot.result.Some? {
      PublishingFollows(before, d, snapshot, clock);
    } else {
      FailingFollows(before, d, snapshot, clock);
    }
  }

  lemma StartedSame(before: Data, d: Data, clock: Clock)
    requires SameButState(before, d)
    ensures SameButState(before, SendStarted(d, clock)) && SendStarted(d, clock).id == d.id
    ensures SendStarted(d, clock).run == d.run && SendStarted(d, clock).actions[0].status == ActionExecuting
  {
  }

  lemma LostFollows(before: Data, started: Data, reason: RecoverableError, clock: Clock)
    requires SameButState(before, started) && started.actions[0].status == ActionExecuting
    ensures Became(before, MarkedRecoverable(started, ActionExecuting, reason, clock), Executing,
                   before.run.executionId, Some(Recoverable(reason)), None, ActionExecuting)
  {
  }

  lemma AnsweredFollows(before: Data, started: Data, runtime: Runtime, request: Request, delivery: Delivery,
                        clock: Clock)
    requires SameButState(before, started) && started.run.status == Executing && request.key == LearnKey(started.id, 0)
    requires Sound(runtime) && RecordsOf(runtime, started.id, request) && request.key in runtime.executions
    requires request.operation == CreateNotionStudyPage && (delivery.Answered? || delivery.Reported?)
    ensures var outcome := Received(before, started, request.key, Ok(runtime.executions[request.key].snapshot),
                                    delivery, clock);
      SendingOutcome(before, outcome, runtime, runtime, delivery)
  {
    var snapshot := runtime.executions[request.key].snapshot;
    assert SingleOutcome(snapshot);
    SettledFollows(before, started, Shown(snapshot, delivery), clock);
  }

  lemma SendingFollows(before: Data, d: Data, request: Request, runtime: Runtime, id: nat, outside: Outside,
                       delivery: Delivery, clock: Clock)
    requires ReadyToSend(before, d, request) && SameButState(before, d)
    requires Sound(runtime) && RecordsOf(runtime, d.id, request) && request.key == LearnKey(d.id, 0)
    ensures var (outcome, after) := Sent(before, d, request, runtime, id, outside, delivery, clock);
      SendingOutcome(before, outcome, runtime, after, delivery)
  {
    SubmissionRecords(runtime, d.id, request, id, outside);
    StartedSame(before, d, clock);
    var started := SendStarted(d, clock);
    if delivery.RequestLost? || delivery.ResponseLost? {
      LostFollows(before, started, delivery.reason, clock);
    } else if !delivery.Broken? {
      AnsweredFollows(before, started, Submitted(runtime, request, id, outside), request, delivery, clock);
    }
  }

  /** What a submission leaves of the rows, for each thing that can become of it. */
  predicate SendingOutcome(d: Data, outcome: Outcome, runtime: Runtime, after: Runtime, delivery: Delivery) {
    var key, later := LearnKey(d.id, 0), outcome.data;
    match delivery
    case RequestLost(reason) =>
      && outcome.error == None && after == runtime
      && Became(d, later, Executing, d.run.executionId, Some(Recoverable(reason)), None, ActionExecuting)
    case ResponseLost(reason) =>
      && outcome.error == None && key in after.executions
      && Became(d, later, Executing, d.run.executionId, Some(Recoverable(reason)), None, ActionExecuting)
    case Broken(reached) =>
      && outcome.error == Some(RuntimeFailure) && (if reached then key in after.executions else after == runtime)
      && Unchanged(d, later)
    case Answered =>
      && outcome.error == None && key in after.executions
      && after.executions[key].snapshot.status in {Succeeded, RunFailed}
      && Follows(d, later, after.executions[key].snapshot)
    case Reported(status) =>
      && key in after.executions
      && if status == RunQueued then outcome.error == Some(InvalidWorkflowTransition) && Unchanged(d, later)
         else
           && outcome.error == None
           && Follows(d, later, Snapshot(after.executions[key].snapshot.id, status, None, None))
  }

  /** What becomes of an execution, whatever has happened before it: the stored identifier, the state,
      the error, the artifact and the action's status for each thing that can become of a submission. */
  lemma ExecutionOutcome(id: nat, owner: nat, steps: seq<Timed>, step: Step, clock: Clock)
    requires Sends(After(Start(id, owner), steps), step)
    ensures var w := After(Start(id, owner), steps);
      var effect := Next(w, step, clock);
      && SendingOutcome(w.data, Outcome(effect.world.data, effect.error), w.runtime, effect.world.runtime,
                        step.delivery)
      && effect.world.waiting == []
  {
    ReachableOk(id, owner, steps);
    OkExecutionOutcome(After(Start(id, owner), steps), step, clock);
  }

  lemma OkExecutionOutcome(w: World, step: Step, clock: Clock)
    requires WorldOk(w) && Sends(w, step)
    ensures var effect := Next(w, step, clock);
      && SendingOutcome(w.data, Outcome(effect.world.data, effect.error), w.runtime, effect.world.runtime,
                        step.delivery)
      && effect.world.waiting == []
  {
    if step.Execute? {
      RetryOutcome(w, step.id, step.outside, step.delivery, clock);
    } else {
      FirstOutcome(w, step.id, step.outside, step.delivery, clock);
    }
  }

  lemma RetryOutcome(w: World, id: nat, outside: Outside, delivery: Delivery, clock: Clock)
    requires WorldOk(w) && HasRecoverableError(w.data.run)
    ensures var effect := ExecutionBegun(w, id, outside, delivery, clock);
      && SendingOutcome(w.data, Outcome(effect.world.data, effect.error), w.runtime, effect.world.runtime, delivery)
      && effect.world.waiting == []
  {
    SendingFollows(w.data, w.data, ExecutionRequest(w.data), w.runtime, id, outside, delivery, clock);
  }

  lemma FirstOutcome(w: World, id: nat, outside: Outside, delivery: Delivery, clock: Clock)
    requires WorldOk(w) && w.waiting != [] && w.data.run.status == Queued
    ensures var effect := ExecutionResumed(w, id, outside, delivery, clock);
      && SendingOutcome(w.data, Outcome(effect.world.data, effect.error), w.runtime, effect.world.runtime, delivery)
      && effect.world.waiting == []
  {
    SendingFollows(w.data, Moved(w.data, Executing, clock).value, w.waiting[0], w.runtime, id, outside, delivery,
                   clock);
  }

  // ----- Executions that do not send

  predicate QueueOutcome(w: World, effect: Effect) {
    var d := w.data;
    if d.run.status == Approved && |d.actions| == 1 && d.actions[0].operation == CreateNotionStudyPage then
      && effect.error == None && effect.world.runtime == w.runtime
      && Became(d, effect.world.data, Queued, None, d.run.errorCode, None, ActionQueued)
      && |effect.world.waiting| == 1
      && effect.world.waiting[0].key == LearnKey(d.id, 0)
      && effect.world.waiting[0].operation == CreateNotionStudyPage
      && d.approvals != [] && d.approvals[0].approved.Some?
      && effect.world.waiting[0].payload.content == d.approvals[0].approved.value.content
    else
      && effect.world == w
      && effect.error == if d.run.status == Completed then None
                         else if d.run.status == Approved then Some(ApprovalRequired)
                         else Some(LearnWorkflowInvalidState)
  }

  /** An execution that finds its run approved queues it and waits with the approved request; any other
      run it leaves alone. */
  lemma ExecutionQueues(id: nat, owner: nat, steps: seq<Timed>, execution: nat, outside: Outside, delivery: Delivery,
                        clock: Clock)
    requires !HasRecoverableError(After(Start(id, owner), steps).data.run)
    ensures var w := After(Start(id, owner), steps);
      QueueOutcome(w, Next(w, Execute(execution, outside, delivery), clock))
  {
    ReachableOk(id, owner, steps);
    OkQueueOutcome(After(Start(id, owner), steps), execution, outside, delivery, clock);
  }

  lemma OkQueueOutcome(w: World, execution: nat, outside: Outside, delivery: Delivery, clock: Clock)
    requires WorldOk(w) && !HasRecoverableError(w.data.run)
    ensures QueueOutcome(w, ExecutionBegun(w, execution, outside, delivery, clock))
  {
    var d := w.data;
    if d.run.status == Approved && |d.actions| == 1 {
      assert d.approvals[0] in d.approvals;
    }
  }

  /** An execution that waits for its second lock and finds its run ended stops there. */
  lemma LateOutcome(id: nat, owner: nat, steps: seq<Timed>, execution: nat, outside: Outside, delivery: Delivery,
                    clock: Clock)
    requires After(Start(id, owner), steps).data.run.status != Queued
    ensures var w := After(Start(id, owner), steps);
      var effect := Next(w, Resume(execution, outside, delivery), clock);
      && effect.world.data == w.data && effect.world.runtime == w.runtime && effect.world.waiting == []
      && effect.error == Some(if w.waiting == [] then NothingToResume else InvalidWorkflowTransition)
  {
    ReachableOk(id, owner, steps);
    OkLateOutcome(After(Start(id, owner), steps), execution, outside, delivery, clock);
  }

  lemma OkLateOutcome(w: World, execution: nat, outside: Outside, delivery: Delivery, clock: Clock)
    requires WorldOk(w) && w.data.run.status != Queued
    ensures var effect := Next(w, Resume(execution, outside, delivery), clock);
      && effect.world.data == w.data && effect.world.runtime == w.runtime && effect.world.waiting == []
      && effect.error == Some(if w.waiting == [] then NothingToResume else InvalidWorkflowTransition)
  {
  }

  // ----- Deciding

  predicate SameElse<T(==)>(before: seq<T>, after: seq<T>, i: nat) {
    |after| == |before| && forall k :: 0 <= k < |before| && k != i ==> after[k] == before[k]
  }

  /** Why a decision is refused. */
  function DecisionError(d: Data, approvalId: nat, payload: Option<Payload>, approve: bool): Option<Error> {
    if |d.approvals| <= approvalId then Some(ApprovalNotFound)
    else if d.approvals[approvalId].status != Pending then Some(ApprovalAlreadyResolved)
    else if d.run.status != AwaitingApproval then Some(InvalidWorkflowTransition)
    else if approve && payload != Some(d.approvals[approvalId].original) then Some(ApprovalPayloadMismatch)
    else None
  }

  /** The approval is granted with the payload it shows; nothing else is decided. */
  predicate ApprovesOne(d: Data, later: Data, i: nat, now: int)
    requires i < |d.approvals| && |d.actions| == |d.approvals|
  {
    && SameElse(d.approvals, later.approvals, i) && SameElse(d.actions, later.actions, i)
    && later.approvals[i] == Approval(i, i, Granted, d.approvals[i].original, Some(d.approvals[i].original), Some(now),
                                      Some(d.owner))
    && later.actions[i] == d.actions[i].(status := ActionApproved)
  }

  /** The approval is declined, and every other one still pending expires. */
  predicate RejectsAll(d: Data, later: Data, i: nat, now: int)
    requires i < |d.approvals| && |d.actions| == |d.approvals|
  {
    && |later.approvals| == |d.approvals| && SameElse(d.actions, later.actions, i)
    && later.approvals[i] == Approval(i, i, Declined, d.approvals[i].original, None, Some(now), Some(d.owner))
    && later.actions[i] == d.actions[i].(status := ActionRejected)
    && forall k :: 0 <= k < |d.approvals| && k != i ==>
         later.approvals[k] == if d.approvals[k].status == Pending
                               then d.approvals[k].(status := Expired, resolvedAt := Some(now))
                               else d.approvals[k]
  }

  /** The rest of the row, apart from the state. */
  predicate OnlyDecides(d: Data, later: Data, status: Status) {
    && later.run == d.run.(status := status, completedAt := later.run.completedAt)
    && later == d.(run := later.run, actions := later.actions, approvals := later.approvals, log := later.log)
  }

  predicate DecisionOutcome(d: Data, outcome: Outcome, approvalId: nat, payload: Option<Payload>, approve: bool,
                            now: int)
    requires |d.actions| == |d.approvals|
  {
    var later := outcome.data;
    && outcome.error == DecisionError(d, approvalId, payload, approve)
    && if outcome.error.Some? then later == d
       else if approve then
         && ApprovesOne(d, later, approvalId, now)
         && OnlyDecides(d, later, if SomeApproval(later.approvals, Pending) then AwaitingApproval else Approved)
       else RejectsAll(d, later, approvalId, now) && OnlyDecides(d, later, Rejected)
  }

  lemma GrantingOutcome(d: Data, i: nat, now: int, clock: Clock)
    requires RowsOk(d) && d.run.status == AwaitingApproval && i < |d.approvals| && d.approvals[i].status == Pending
    ensures DecisionOutcome(d, Concluded(d, Decided(d, i, i, true, now, clock), true, now, clock), i,
                            Some(d.approvals[i].original), true, now)
  {
    var decided := Decided(d, i, i, true, now, clock);
    forall a | a in decided.approvals
      ensures a.status in {Pending, Granted}
    {
      assert a in d.approvals || a == decided.approvals[i];
    }
    assert ActionIds(decided.actions) == ApprovedActionIds(decided.approvals) by {
      DecidedPairs(d, i, true, now, clock);
      SameActionIds(decided.actions, decided.approvals);
    }
  }

  lemma SameActionIds(actions: seq<Action>, approvals: seq<Approval>)
    requires PairedRows(actions, approvals)
    ensures ActionIds(actions) == ApprovedActionIds(approvals)
  {
    forall k | 0 <= k < |actions|
      ensures actions[k].id in ApprovedActionIds(approvals) && approvals[k].actionId in ActionIds(actions)
    {
      assert ApprovalOk(approvals[k], actions[k]);
      assert approvals[k] in approvals && actions[k] in actions;
    }
  }

  lemma DecliningOutcome(d: Data, i: nat, payload: Option<Payload>, now: int, clock: Clock)
    requires RowsOk(d) && d.run.status == AwaitingApproval && i < |d.approvals| && d.approvals[i].status == Pending
    ensures DecisionOutcome(d, Concluded(d, Decided(d, i, i, false, now, clock), false, now, clock), i, payload, false,
                            now)
  {
    var decided := Decided(d, i, i, false, now, clock);
    ExpiredAll(decided, |decided.approvals|, now, clock);
  }

  lemma OkDecisionOutcome(d: Data, approvalId: nat, payload: Option<Payload>, approve: bool, now: int, clock: Clock)
    requires RowsOk(d)
    ensures DecisionOutcome(d, Resolved(d, approvalId, payload, approve, now, clock), approvalId, payload, approve, now)
  {
    var i := FindApproval(d.approvals, approvalId);
    if approvalId < |d.approvals| {
      assert d.approvals[approvalId].id == approvalId;
      assert i < |d.approvals| && d.approvals[i].id == i;
      if d.approvals[i].status == Pending && d.run.status == AwaitingApproval {
        assert FindAction(d.actions, d.approvals[i].actionId) == i;
        if approve {
          GrantingOutcome(d, i, now, clock);
        } else {
          DecliningOutcome(d, i, payload, now, clock);
        }
      }
    }
  }

  /** What a decision makes of a plan: a rejection ends the run and expires what is still pending, the
      last approval releases it, any other leaves it waiting; and exactly why one is refused. */
  lemma DecisionMade(id: nat, owner: nat, steps: seq<Timed>, approvalId: nat, payload: Option<Payload>, approve: bool,
                     now: int, clock: Clock)
    ensures var w := After(Start(id, owner), steps);
      var effect := Next(w, Resolve(approvalId, payload, approve, now), clock);
      && |w.data.actions| == |w.data.approvals|
      && DecisionOutcome(w.data, Outcome(effect.world.data, effect.error), approvalId, payload, approve, now)
      && effect.world == w.(data := effect.world.data)
  {
    ReachableOk(id, owner, steps);
    OkDecisionMade(After(Start(id, owner), steps), approvalId, payload, approve, now, clock);
  }

  lemma OkDecisionMade(w: World, approvalId: nat, payload: Option<Payload>, approve: bool, now: int, clock: Clock)
    requires RowsOk(w.data)
    ensures var effect := Next(w, Resolve(approvalId, payload, approve, now), clock);
      && |w.data.actions| == |w.data.approvals|
      && DecisionOutcome(w.data, Outcome(effect.world.data, effect.error), approvalId, payload, approve, now)
      && effect.world == w.(data := effect.world.data)
  {
    OkDecisionOutcome(w.data, approvalId, payload, approve, now, clock);
    ResolveIsNext(w, approvalId, payload, approve, now, clock);
  }

  lemma ResolveIsNext(w: World, approvalId: nat, payload: Option<Payload>, approve: bool, now: int, clock: Clock)
    ensures Next(w, Resolve(approvalId, payload, approve, now), clock)
            == OnData(w, Resolved(w.data, approvalId, payload, approve, now, clock))
  {
  }

  // ----- Cancelling

  /** Queued and running actions have failed, the others are as they were. */
  predicate Halts(actions: seq<Action>, later: seq<Action>) {
    && |later| == |actions|
    && forall k :: 0 <= k < |actions| ==>
         later[k] == if actions[k].status == ActionQueued || actions[k].status == ActionExecuting
                     then actions[k].(status := ActionFailed) else actions[k]
  }

  predicate CancelOutcome(d: Data, outcome: Outcome, reply: Option<ExecutionStatus>) {
    var later := outcome.data;
    if d.run.completedAt.Some? then outcome == Outcome(d, None)
    else if d.run.executionId.None? then
      outcome.error == None && OnlyDecides(d, later, Cancelled)
      && later.actions == d.actions && later.approvals == d.approvals
    else if reply == Some(RunCancelled) then
      outcome.error == None && OnlyDecides(d, later, Cancelled)
      && Halts(d.actions, later.actions) && later.approvals == d.approvals
    else
      outcome.error == Some(if reply.None? then RuntimeFailure else InvalidWorkflowTransition) && Unchanged(d, later)
  }

  lemma OkCancelOutcome(d: Data, reply: Option<ExecutionStatus>, clock: Clock)
    requires RowsOk(d)
    ensures CancelOutcome(d, CancelledBy(d, reply, clock), reply)
  {
  }

  /** What a cancel makes of a run: one that has ended stays as it is, one the runtime does not know is
      cancelled at once, and one it knows is cancelled exactly when the runtime says so. */
  lemma CancelMade(id: nat, owner: nat, steps: seq<Timed>, reply: Option<ExecutionStatus>, clock: Clock)
    ensures var w := After(Start(id, owner), steps);
      var effect := Next(w, Cancel(reply), clock);
      && CancelOutcome(w.data, Outcome(effect.world.data, effect.error), reply)
      && effect.world == w.(data := effect.world.data)
  {
    ReachableOk(id, owner, steps);
    OkCancelMade(After(Start(id, owner), steps), reply, clock);
  }

  lemma OkCancelMade(w: World, reply: Option<ExecutionStatus>, clock: Clock)
    requires WorldOk(w)
    ensures var effect := Next(w, Cancel(reply), clock);
      && CancelOutcome(w.data, Outcome(effect.world.data, effect.error), reply)
      && effect.world == w.(data := effect.world.data)
  {
    OkCancelOutcome(w.data, reply, clock);
  }
}
