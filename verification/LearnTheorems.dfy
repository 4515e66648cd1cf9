/** The guarantees of the approval and execution protocol, over every interleaving of its steps. */
module LearnTheorems {
  import opened Wrappers
  import opened WorkflowStates
  import opened AuditTrail
  import opened Payloads
  import opened LocalRuntime
  import opened LearnRun
  import opened LearnLog
  import opened LearnRows
  import opened LearnProtocol

  // ----- Rows, step by step

  lemma EarlyRows(w: World, step: Step, clock: Clock)
    requires RowsOk(w.data) && Plans(step)
    ensures RowsOk(Next(w, step, clock).world.data)
  {
    match step
    case StartAnalysis => AnalysisKeeps(w.data, clock);
    case FailParsing(code) => FailureKeeps(w.data, code, clock);
    case FailSummary(code) => FailureKeeps(w.data, code, clock);
    case _ => ProgressKeeps(w.data, clock);
  }

  lemma ProposingRows(w: World, step: Step, clock: Clock)
    requires RowsOk(w.data) && Proposes(step)
    ensures RowsOk(Next(w, step, clock).world.data)
  {
    match step
    case FinishSummary(text, destination) =>
      PlannedKeeps(w.data, text, [Proposal(CreateNotionStudyPage, Page(text, destination))], clock);
    case FinishOtherPlan(text, proposals) => PlannedKeeps(w.data, text, proposals, clock);
  }

  lemma DecidingRows(w: World, step: Step, clock: Clock)
    requires RowsOk(w.data) && Decides(step)
    ensures RowsOk(Next(w, step, clock).world.data)
  {
    match step
    case Edit(text, destination, expected) => EditKeeps(w.data, text, destination, expected, clock);
    case UpdateDestination(destination) => DestinationKeeps(w.data, destination, clock);
    case Resolve(approvalId, payload, approve, now) => ResolvedKeeps(w.data, approvalId, payload, approve, now, clock);
  }

  lemma StepRows(w: World, step: Step, clock: Clock)
    requires RowsOk(w.data) && forall r :: r in w.waiting ==> r.key == LearnKey(w.data.id, 0)
    ensures RowsOk(Next(w, step, clock).world.data)
  {
    if Plans(step) {
      EarlyRows(w, step, clock);
    } else if Proposes(step) {
      ProposingRows(w, step, clock);
    } else if Decides(step) {
      DecidingRows(w, step, clock);
    } else {
      match step
      case Execute(id, outside, delivery) => BegunKeeps(w, id, outside, delivery, clock);
      case Resume(id, outside, delivery) => ResumedKeeps(w, id, outside, delivery, clock);
      case Cancel(reply) => CancelKeeps(w.data, reply, clock);
      case OtherSubmission(_, _, _) =>
      case OtherEvent(_, _) =>
    }
  }

  // ----- Requests, step by step

  predicate OnlyRows(step: Step) {
    Plans(step) || Proposes(step) || Decides(step) || step.Cancel?
  }

  lemma EarlyStepSettles(w: World, step: Step, clock: Clock)
    requires RowsOk(w.data) && Plans(step)
    ensures Settles(w.data, Next(w, step, clock).world.data)
  {
    match step
    case FailParsing(code) => FailureSettles(w.data, code, clock);
    case FailSummary(code) => FailureSettles(w.data, code, clock);
    case _ => ProgressSettles(w.data, clock);
  }

  lemma ProposingStepSettles(w: World, step: Step, clock: Clock)
    requires RowsOk(w.data) && Proposes(step)
    ensures Settles(w.data, Next(w, step, clock).world.data)
  {
    match step
    case FinishSummary(text, destination) =>
      PlannedSettles(w.data, text, [Proposal(CreateNotionStudyPage, Page(text, destination))], clock);
    case FinishOtherPlan(text, proposals) => PlannedSettles(w.data, text, proposals, clock);
  }

  lemma DecidingStepSettles(w: World, step: Step, clock: Clock)
    requires RowsOk(w.data) && Decides(step)
    ensures Settles(w.data, Next(w, step, clock).world.data)
  {
    match step
    case Edit(text, destination, expected) => RewritingSettles(w.data, text, destination, expected, clock);
    case UpdateDestination(destination) => RewritingSettles(w.data, "", destination, Page("", destination), clock);
    case Resolve(approvalId, payload, approve, now) => ResolvedSettles(w.data, approvalId, payload, approve, now,
                                                                       clock);
  }

  lemma StepSettles(w: World, step: Step, clock: Clock)
    requires RowsOk(w.data) && OnlyRows(step)
    ensures Settles(w.data, Next(w, step, clock).world.data)
    ensures Next(w, step, clock).world == w.(data := Next(w, step, clock).world.data)
  {
    if Plans(step) {
      EarlyStepSettles(w, step, clock);
    } else if Proposes(step) {
      ProposingStepSettles(w, step, clock);
    } else if Decides(step) {
      DecidingStepSettles(w, step, clock);
    } else {
      CancelSettles(w.data, step.reply, clock);
    }
  }

  lemma StepProtocol(w: World, step: Step, clock: Clock)
    requires WorldOk(w)
    ensures ProtocolOk(Next(w, step, clock).world)
  {
    if OnlyRows(step) {
      StepSettles(w, step, clock);
      RowStepKeepsProtocol(w, Next(w, step, clock).world.data);
    } else {
      match step
      case Execute(id, outside, delivery) => BegunKeepsProtocol(w, id, outside, delivery, clock);
      case Resume(id, outside, delivery) => ResumedKeepsProtocol(w, id, outside, delivery, clock);
      case OtherSubmission(request, id, outside) =>
        if !Own(w.data.id, request.key) {
          OtherKeepsProtocol(w, request, id, outside);
        }
      case OtherEvent(_, _) =>
    }
  }

  /** Every step keeps the invariant of rows, log and runtime. */
  lemma StepOk(w: World, step: Step, clock: Clock)
    requires WorldOk(w)
    ensures WorldOk(Next(w, step, clock).world)
  {
    WaitingKey(w);
    StepTells(w, step, clock);
    StepRows(w, step, clock);
    StepProtocol(w, step, clock);
  }

  lemma WaitingKey(w: World)
    requires WorldOk(w)
    ensures forall r :: r in w.waiting ==> r.key == LearnKey(w.data.id, 0)
    ensures HasRecoverableError(w.data.run) ==> w.data.run.status == Executing
  {
  }

  /** Every reachable world satisfies the invariant. */
  lemma {:induction false} ReachableOk(id: nat, owner: nat, steps: seq<Timed>)
    ensures WorldOk(After(Start(id, owner), steps))
  {
    if steps != [] {
      var last := steps[|steps| - 1];
      ReachableOk(id, owner, steps[..|steps| - 1]);
      StepOk(After(Start(id, owner), steps[..|steps| - 1]), last.step, last.clock);
    }
  }

  // ----- Approvals

  /** What a run's state says about its approvals. */
  predicate ApprovalsAgree(d: Data) {
    && |d.approvals| == |d.actions|
    && (forall i :: 0 <= i < |d.approvals| ==>
          && d.approvals[i].actionId == d.actions[i].id
          && (d.approvals[i].status == Pending ==> d.approvals[i].original == d.actions[i].payload)
          && (d.approvals[i].status == Granted ==> d.approvals[i].approved == Some(d.approvals[i].original))
          && (d.approvals[i].status == Pending <==> d.approvals[i].resolvedAt == None))
    && (d.run.status == AwaitingApproval ==>
          && SomeApproval(d.approvals, Pending)
          && !SomeApproval(d.approvals, Declined)
          && !SomeApproval(d.approvals, Expired))
    && (d.run.status in {Approved, Queued, Executing, Completed} ==>
          d.approvals != [] && AllApprovals(d.approvals, Granted))
    && (d.run.status == Rejected ==> !SomeApproval(d.approvals, Pending) && SomeApproval(d.approvals, Declined))
  }

  lemma RowsAgree(d: Data)
    requires RowsOk(d)
    ensures ApprovalsAgree(d)
  {
    if d.run.status == AwaitingApproval {
      assert !SomeApproval(d.approvals, Declined) && !SomeApproval(d.approvals, Expired);
    }
    forall i | 0 <= i < |d.approvals|
      ensures d.approvals[i].status == Pending <==> d.approvals[i].resolvedAt == None
    {
      assert ApprovalOk(d.approvals[i], d.actions[i]);
    }
  }

  /** In every reachable world the approvals agree with the actions and with the state. */
  lemma ApprovalInvariant(id: nat, owner: nat, steps: seq<Timed>)
    ensures ApprovalsAgree(After(Start(id, owner), steps).data)
  {
    ReachableOk(id, owner, steps);
    RowsAgree(After(Start(id, owner), steps).data);
  }

  /** No approval is decided or changed once decided. */
  predicate KeepsDecisions(approvals: seq<Approval>, later: seq<Approval>) {
    && |approvals| <= |later|
    && forall i :: 0 <= i < |approvals| ==>
         && later[i].status == approvals[i].status
         && (approvals[i].status != Pending ==> later[i] == approvals[i])
  }

  lemma EarlyKeepsDecisions(w: World, step: Step, clock: Clock)
    requires Plans(step) || step.Cancel? || step.OtherSubmission? || step.OtherEvent?
    ensures KeepsDecisions(w.data.approvals, Next(w, step, clock).world.data.approvals)
  {
  }

  lemma RewritingKeepsDecisions(w: World, step: Step, clock: Clock)
    requires RowsOk(w.data) && (step.Edit? || step.UpdateDestination?)
    ensures KeepsDecisions(w.data.approvals, Next(w, step, clock).world.data.approvals)
  {
  }

  lemma PlannedKeepsDecisions(d: Data, text: string, proposals: seq<Proposal>, clock: Clock)
    requires RowsOk(d)
    ensures KeepsDecisions(d.approvals, Planned(d, text, proposals, clock).data.approvals)
  {
    if d.run.status != Analyzing {
      assert Planned(d, text, proposals, clock).data.approvals == d.approvals;
    }
  }

  lemma PlanningKeepsDecisions(w: World, step: Step, clock: Clock)
    requires RowsOk(w.data) && Proposes(step)
    ensures KeepsDecisions(w.data.approvals, Next(w, step, clock).world.data.approvals)
  {
    match step
    case FinishSummary(text, destination) =>
      PlannedKeepsDecisions(w.data, text, [Proposal(CreateNotionStudyPage, Page(text, destination))], clock);
    case FinishOtherPlan(text, proposals) => PlannedKeepsDecisions(w.data, text, proposals, clock);
  }

  /** The same run with the same approvals. */
  predicate SameApprovals(d: Data, later: Data) {
    later.id == d.id && later.approvals == d.approvals
  }

  lemma SettlingKeepsApprovals(d: Data, key: Key, snapshot: Snapshot, clock: Clock)
    ensures var (at, result) := Settled(d, key, snapshot, clock);
      result.Ok? ==> SameApprovals(d, result.value)
  {
  }

  lemma SendingKeepsApprovals(before: Data, d: Data, request: Request, runtime: Runtime, id: nat, outside: Outside,
                              delivery: Delivery, clock: Clock)
    requires SameApprovals(before, d)
    ensures SameApprovals(before, Sent(before, d, request, runtime, id, outside, delivery, clock).0.data)
  {
    var started := SendStarted(d, clock);
    var answer := Answer(runtime, request, id, outside);
    if answer.Ok? {
      SettlingKeepsApprovals(started, request.key, Shown(answer.value, delivery), clock);
    }
  }

  lemma BeginningKeepsApprovals(w: World, id: nat, outside: Outside, delivery: Delivery, clock: Clock)
    ensures SameApprovals(w.data, ExecutionBegun(w, id, outside, delivery, clock).world.data)
  {
    if Executable(w.data) {
      SendingKeepsApprovals(w.data, w.data, ExecutionRequest(w.data), w.runtime, id, outside, delivery, clock);
    }
  }

  lemma ResumingKeepsApprovals(w: World, id: nat, outside: Outside, delivery: Delivery, clock: Clock)
    ensures SameApprovals(w.data, ExecutionResumed(w, id, outside, delivery, clock).world.data)
  {
    var moved := Moved(w.data, Executing, clock);
    if w.waiting != [] && moved.Ok? {
      SendingKeepsApprovals(w.data, moved.value, w.waiting[0], w.runtime, id, outside, delivery, clock);
    }
  }

  lemma ExecutingKeepsApprovals(w: World, step: Step, clock: Clock)
    requires step.Execute? || step.Resume?
    ensures SameApprovals(w.data, Next(w, step, clock).world.data)
  {
    BeginningKeepsApprovals(w, step.id, step.outside, step.delivery, clock);
    ResumingKeepsApprovals(w, step.id, step.outside, step.delivery, clock);
  }

  lemma OnlyResolveDecides(w: World, step: Step, clock: Clock)
    requires RowsOk(w.data) && !step.Resolve?
    ensures KeepsDecisions(w.data.approvals, Next(w, step, clock).world.data.approvals)
  {
    if step.Execute? || step.Resume? {
      ExecutingKeepsApprovals(w, step, clock);
    } else if step.Edit? || step.UpdateDestination? {
      RewritingKeepsDecisions(w, step, clock);
    } else if Proposes(step) {
      PlanningKeepsDecisions(w, step, clock);
    } else {
      EarlyKeepsDecisions(w, step, clock);
    }
  }

  lemma ConcludedApprovals(d: Data, decided: Data, approve: bool, now: int, clock: Clock, i: nat)
    requires i < |d.approvals| == |decided.approvals|
    ensures var later := Concluded(d, decided, approve, now, clock).data.approvals;
      i < |later| && later[i] in {d.approvals[i], decided.approvals[i], ExpiredOne(decided.approvals[i], now)}
    ensures approve
            ==> Concluded(d, decided, approve, now, clock).data.approvals[i] in {d.approvals[i], decided.approvals[i]}
  {
    ExpiredAll(decided, |decided.approvals|, now, clock);
  }

  /** A decision grants at most the approval it names, and only when the payload shown is confirmed. */
  lemma ResolveDecides(d: Data, approvalId: nat, payload: Option<Payload>, approve: bool, now: int, clock: Clock,
                       i: nat)
    requires RowsOk(d) && i < |d.approvals|
    ensures var later := Resolved(d, approvalId, payload, approve, now, clock).data.approvals;
      && i < |later|
      && (d.approvals[i].status != Pending ==> later[i] == d.approvals[i])
      && (d.approvals[i].status == Pending && later[i].status == Granted ==>
            && d.run.status == AwaitingApproval
            && approve && approvalId == i
            && payload == Some(d.approvals[i].original)
            && later[i].approved == payload)
  {
    var k := FindApproval(d.approvals, approvalId);
    if k < |d.approvals| {
      var j := FindAction(d.actions, d.approvals[k].actionId);
      if j < |d.actions| {
        ConcludedApprovals(d, Decided(d, k, j, approve, now, clock), approve, now, clock, i);
      }
    }
  }

  /** The guard that forbids changing a resolved approval never fires: no step changes one. */
  lemma ResolvedAreFrozen(w: World, step: Step, clock: Clock, i: nat)
    requires WorldOk(w) && i < |w.data.approvals| && w.data.approvals[i].status != Pending
    ensures var later := Next(w, step, clock).world.data.approvals;
      i < |later| && later[i] == w.data.approvals[i]
  {
    if step.Resolve? {
      ResolveDecides(w.data, step.approvalId, step.payload, step.approve, step.now, clock, i);
    } else {
      OnlyResolveDecides(w, step, clock);
    }
  }

  /** An approval is granted only by its owner confirming the very payload it shows, which is still
      its action's payload, while the run awaits approval. */
  lemma GrantMeansConfirmed(w: World, step: Step, clock: Clock, i: nat)
    requires WorldOk(w) && i < |w.data.approvals| && w.data.approvals[i].status == Pending
    requires i < |Next(w, step, clock).world.data.approvals|
             && Next(w, step, clock).world.data.approvals[i].status == Granted
    ensures w.data.run.status == AwaitingApproval
    ensures step.Resolve? && step.approve && step.approvalId == i && step.payload == Some(w.data.approvals[i].original)
    ensures Next(w, step, clock).world.data.approvals[i].approved == step.payload
    ensures w.data.actions[i].payload == w.data.approvals[i].original
  {
    if step.Resolve? {
      ResolveDecides(w.data, step.approvalId, step.payload, step.approve, step.now, clock, i);
    } else {
      OnlyResolveDecides(w, step, clock);
    }
    assert ApprovalOk(w.data.approvals[i], w.data.actions[i]);
  }

  // ----- Submissions

  /** In every interleaving, with requests and responses lost at will, no idempotency key outside
      study plans causes more than one connector call, and no call at all is repeated. */
  lemma AtMostOneCall(id: nat, owner: nat, steps: seq<Timed>, i: nat, j: nat)
    requires var calls := After(Start(id, owner), steps).runtime.calls;
      i < j < |calls| && calls[i].key == calls[j].key
    ensures var runtime := After(Start(id, owner), steps).runtime;
      && runtime.calls[i].index != runtime.calls[j].index
      && runtime.calls[i].key in runtime.executions
      && runtime.executions[runtime.calls[i].key].operation == CreateCalendarStudyPlan
      && !Own(id, runtime.calls[i].key)
  {
    ReachableOk(id, owner, steps);
    SameRun(Start(id, owner), steps);
    var w := After(Start(id, owner), steps);
    SoundMeansOneCall(w.runtime);
    assert w.runtime.calls[i] in w.runtime.calls;
  }

  lemma EarlySameRun(w: World, step: Step, clock: Clock)
    requires Plans(step)
    ensures Next(w, step, clock).world.data.id == w.data.id
  {
  }

  lemma ProposingSameRun(w: World, step: Step, clock: Clock)
    requires Proposes(step)
    ensures Next(w, step, clock).world.data.id == w.data.id
  {
  }

  lemma DecidingSameRun(w: World, step: Step, clock: Clock)
    requires Decides(step)
    ensures Next(w, step, clock).world.data.id == w.data.id
  {
  }

  lemma NextSameRun(w: World, step: Step, clock: Clock)
    ensures Next(w, step, clock).world.data.id == w.data.id
  {
    if step.Execute? || step.Resume? {
      ExecutingKeepsApprovals(w, step, clock);
    } else if Plans(step) {
      EarlySameRun(w, step, clock);
    } else if Proposes(step) {
      ProposingSameRun(w, step, clock);
    } else if Decides(step) {
      DecidingSameRun(w, step, clock);
    }
  }

  lemma {:induction false} SameRun(w: World, steps: seq<Timed>)
    ensures After(w, steps).data.id == w.data.id
  {
    if steps != [] {
      SameRun(w, steps[..|steps| - 1]);
      var last := steps[|steps| - 1];
      NextSameRun(After(w, steps[..|steps| - 1]), last.step, last.clock);
    }
  }

  /** A submission never meets a record of another payload: the runtime's refusal of a reused key
      cannot happen. */
  lemma NeverMismatched(id: nat, owner: nat, steps: seq<Timed>, step: Step, clock: Clock)
    requires step.Execute? || step.Resume?
    ensures Next(After(Start(id, owner), steps), step, clock).error != Some(ApprovalPayloadMismatch)
  {
    ReachableOk(id, owner, steps);
    ExecutingNeverMismatched(After(Start(id, owner), steps), step, clock);
  }

  lemma ExecutingNeverMismatched(w: World, step: Step, clock: Clock)
    requires WorldOk(w) && (step.Execute? || step.Resume?)
    ensures Next(w, step, clock).error != Some(ApprovalPayloadMismatch)
  {
    if step.Execute? {
      BegunKeepsProtocol(w, step.id, step.outside, step.delivery, clock);
    } else {
      ResumedKeepsProtocol(w, step.id, step.outside, step.delivery, clock);
    }
  }

  /** Whatever was called for the run is what its owner approved, sent to the destination chosen
      since: only the five destination fields can differ, and none does exactly when each was left
      empty or as approved. */
  lemma SubmittedIsApproved(id: nat, owner: nat, steps: seq<Timed>, call: Call)
    requires call in After(Start(id, owner), steps).runtime.calls && Own(id, call.key)
    ensures var d := After(Start(id, owner), steps).data;
      && SoleApproval(d)
      && d.approvals[0].status == Granted
      && d.approvals[0].approved.Some?
      && call.key == LearnKey(id, d.approvals[0].id)
      && call.payload == Overlay(d.approvals[0].approved.value, d.actions[0].payload)
      && call.payload.content == d.approvals[0].approved.value.content
      && (call.payload == d.approvals[0].approved.value
          <==> SameDestination(d.approvals[0].approved.value.destination, d.actions[0].payload.destination))
  {
    ReachableOk(id, owner, steps);
    SameRun(Start(id, owner), steps);
  }

  /** The destination chosen since is empty or the approved one, field by field. */
  predicate SameDestination(approved: Destination, proposed: Destination) {
    && Unchanging(approved.connectionId, proposed.connectionId)
    && Unchanging(approved.parentId, proposed.parentId)
    && Unchanging(approved.parentTitle, proposed.parentTitle)
    && Unchanging(approved.workspaceId, proposed.workspaceId)
    && Unchanging(approved.workspaceName, proposed.workspaceName)
  }

  predicate Unchanging(approved: Option<string>, proposed: Option<string>) {
    proposed.None? || proposed.value == [] || proposed == approved
  }

  /** A run is completed by the one call it made: there is such a call, and the artifact is its
      recorded result. */
  lemma CompletedByItsCall(id: nat, owner: nat, steps: seq<Timed>)
    requires After(Start(id, owner), steps).data.run.status == Completed
    ensures var w := After(Start(id, owner), steps);
      && Called(w.runtime.calls, LearnKey(id, 0))
      && w.data.artifact.Some?
      && LearnKey(id, 0) in w.runtime.executions
      && w.runtime.executions[LearnKey(id, 0)].snapshot.result == Some(Single(w.data.artifact.value.external))
  {
    ReachableOk(id, owner, steps);
    SameRun(Start(id, owner), steps);
    var w := After(Start(id, owner), steps);
    assert SucceededAlone(w.runtime.executions[LearnKey(id, 0)]);
  }

  // ----- Ending

  function OwnCalls(calls: seq<Call>, run: nat): seq<Call> {
    if calls == [] then []
    else
      var last := calls[|calls| - 1];
      OwnCalls(calls[..|calls| - 1], run) + if Own(run, last.key) then [last] else []
  }

  lemma {:induction false} OtherCallsIgnored(calls: seq<Call>, more: seq<Call>, run: nat)
    requires forall c :: c in more ==> !Own(run, c.key)
    ensures OwnCalls(calls + more, run) == OwnCalls(calls, run)
  {
    if more == [] {
      assert calls + more == calls;
    } else {
      var front, last := more[..|more| - 1], more[|more| - 1];
      OtherCallsIgnored(calls, front, run);
      assert (calls + more)[..|calls + more| - 1] == calls + front;
      assert last in more;
    }
  }

  /** The parts of a run that its end fixes. */
  predicate SameRows(d: Data, later: Data) {
    && later.id == d.id
    && later.run == d.run
    && later.actions == d.actions
    && later.approvals == d.approvals
    && later.artifact == d.artifact
  }

  predicate SameEnd(w: World, later: World) {
    SameRows(w.data, later.data) && OwnCalls(later.runtime.calls, w.data.id) == OwnCalls(w.runtime.calls, w.data.id)
  }

  lemma EndedIgnoresPlanning(w: World, step: Step, clock: Clock)
    requires Terminal(w.data.run.status) && (Plans(step) || step.Cancel? || step.OtherEvent?)
    ensures SameRows(w.data, Next(w, step, clock).world.data)
  {
  }

  lemma EndedIgnoresPlans(w: World, text: string, proposals: seq<Proposal>, clock: Clock)
    requires Terminal(w.data.run.status)
    ensures SameRows(w.data, Planned(w.data, text, proposals, clock).data)
  {
  }

  lemma EndedIgnoresProposals(w: World, step: Step, clock: Clock)
    requires Terminal(w.data.run.status) && Proposes(step)
    ensures SameRows(w.data, Next(w, step, clock).world.data)
  {
    match step
    case FinishSummary(text, destination) =>
      EndedIgnoresPlans(w, text, [Proposal(CreateNotionStudyPage, Page(text, destination))], clock);
    case FinishOtherPlan(text, proposals) => EndedIgnoresPlans(w, text, proposals, clock);
  }

  lemma EndedIgnoresDecisions(w: World, step: Step, clock: Clock)
    requires Terminal(w.data.run.status) && Decides(step)
    ensures SameRows(w.data, Next(w, step, clock).world.data)
  {
  }

  lemma EndedIgnoresExecute(w: World, id: nat, outside: Outside, delivery: Delivery, clock: Clock)
    requires Terminal(w.data.run.status)
    ensures ExecutionBegun(w, id, outside, delivery, clock).world == w
  {
  }

  lemma EndedIgnoresResume(w: World, id: nat, outside: Outside, delivery: Delivery, clock: Clock)
    requires Terminal(w.data.run.status)
    ensures ExecutionResumed(w, id, outside, delivery, clock).world.data == w.data
    ensures ExecutionResumed(w, id, outside, delivery, clock).world.runtime == w.runtime
  {
    assert Moved(w.data, Executing, clock).Err?;
  }

  lemma OthersCallNothingHere(runtime: Runtime, run: nat, request: Request, id: nat, outside: Outside)
    requires !Own(run, request.key)
    ensures OwnCalls(Submitted(runtime, request, id, outside).calls, run) == OwnCalls(runtime.calls, run)
  {
    OtherCallsIgnored(runtime.calls, CallsMade(request, outside), run);
  }

  lemma EndedStaysEnded(w: World, step: Step, clock: Clock)
    requires Terminal(w.data.run.status)
    ensures SameEnd(w, Next(w, step, clock).world)
  {
    if step.Execute? {
      EndedIgnoresExecute(w, step.id, step.outside, step.delivery, clock);
    } else if step.Resume? {
      EndedIgnoresResume(w, step.id, step.outside, step.delivery, clock);
    } else if Proposes(step) {
      EndedIgnoresProposals(w, step, clock);
    } else if Decides(step) {
      EndedIgnoresDecisions(w, step, clock);
    } else if step.OtherSubmission? {
      if !Own(w.data.id, step.request.key) {
        OthersCallNothingHere(w.runtime, w.data.id, step.request, step.id, step.outside);
      }
    } else {
      EndedIgnoresPlanning(w, step, clock);
    }
  }

  /** Once a run has ended, by a cancel or otherwise, no interleaving of further steps changes it or
      makes another call for it; in particular an execution that was waiting for its second lock when
      the cancel committed submits nothing. */
  lemma {:induction false} NothingAfterTheEnd(w: World, steps: seq<Timed>)
    requires Terminal(w.data.run.status)
    ensures SameEnd(w, After(w, steps))
  {
    if steps != [] {
      var last := steps[|steps| - 1];
      var before := After(w, steps[..|steps| - 1]);
      NothingAfterTheEnd(w, steps[..|steps| - 1]);
      EndedStaysEnded(before, last.step, last.clock);
    }
  }

  // ----- States

  /** Every run changes state at most seven times, holds a completion time exactly when it has ended,
      and a start time from analysis on. */
  lemma StatesAndStamps(id: nat, owner: nat, steps: seq<Timed>)
    ensures var d := After(Start(id, owner), steps).data;
      && |History(d.log.events, id)| <= MAX_CHANGES + 1
      && (d.run.completedAt.Some? <==> Terminal(d.run.status))
      && (d.run.startedAt.None? ==> d.run.status in {Draft, Cancelled})
  {
    ReachableOk(id, owner, steps);
    SameRun(Start(id, owner), steps);
    StoryIsPath(After(Start(id, owner), steps).data.log.events, id);
    PathsAreShort(History(After(Start(id, owner), steps).data.log.events, id));
  }

  /** Reading the audit rows by timestamp and replaying the state changes gives the current state. */
  lemma AuditRebuildsState(id: nat, owner: nat, steps: seq<Timed>, read: seq<Event>)
    requires var events := After(Start(id, owner), steps).data.log.events;
      multiset(read) == multiset(events) && Increasing(read)
    ensures Replayed(read, id) == After(Start(id, owner), steps).data.run.status
    ensures Path(History(read, id))
  {
    ReachableOk(id, owner, steps);
    SameRun(Start(id, owner), steps);
    TimestampsGiveOrder(After(Start(id, owner), steps).data.log, read);
    StoryIsPath(read, id);
  }

  /** Recording a lost response writes the state outside the table, but writes the state the run is
      already in. */
  lemma RecoveryIsStutter(id: nat, owner: nat, steps: seq<Timed>, execution: nat, outside: Outside,
                          delivery: Delivery, clock: Clock)
    requires delivery.RequestLost? || delivery.ResponseLost?
    requires HasRecoverableError(After(Start(id, owner), steps).data.run)
    ensures var d := After(Start(id, owner), steps).data;
      var later := ExecutionBegun(After(Start(id, owner), steps), execution, outside, delivery, clock).world.data;
      && d.run.status == Executing
      && later.run.status == Executing
      && later.run.errorCode == Some(Recoverable(delivery.reason))
      && History(later.log.events, id) == History(d.log.events, id)
  {
    ReachableOk(id, owner, steps);
    SameRun(Start(id, owner), steps);
    var w := After(Start(id, owner), steps);
    RecoveredOutcome(w, execution, outside, delivery, clock);
    RecoveredHistory(w.data, delivery.reason, clock);
  }

  /** The same for the first submission: the run changes to executing along the table, and the direct
      write adds nothing to that. */
  lemma FirstLossIsStutter(id: nat, owner: nat, steps: seq<Timed>, execution: nat, outside: Outside,
                           delivery: Delivery, clock: Clock)
    requires delivery.RequestLost? || delivery.ResponseLost?
    requires var w := After(Start(id, owner), steps);
      w.waiting != [] && w.data.run.status == Queued
    ensures var d := After(Start(id, owner), steps).data;
      var later := ExecutionResumed(After(Start(id, owner), steps), execution, outside, delivery, clock).world.data;
      && later.run.status == Executing
      && later.run.errorCode == Some(Recoverable(delivery.reason))
      && History(later.log.events, id) == History(d.log.events, id) + [Executing]
  {
    ReachableOk(id, owner, steps);
    SameRun(Start(id, owner), steps);
    FirstLossOutcome(After(Start(id, owner), steps), execution, outside, delivery, clock);
    FirstLossHistory(After(Start(id, owner), steps).data, delivery.reason, clock);
  }

  lemma FirstLossHistory(d: Data, reason: RecoverableError, clock: Clock)
    requires Moved(d, Executing, clock).Ok?
    ensures var later := MarkedRecoverable(SendStarted(Moved(d, Executing, clock).value, clock), ActionExecuting,
                                           reason, clock);
      && later.run.status == Executing
      && later.run.errorCode == Some(Recoverable(reason))
      && History(later.log.events, d.id) == History(d.log.events, d.id) + [Executing]
  {
    RecoveredHistory(Moved(d, Executing, clock).value, reason, clock);
    ChangeHistory(d.log, d.id, d.run.status, Executing, clock);
  }

  lemma ChangeHistory(log: Log, id: nat, from: Status, to: Status, clock: Clock)
    ensures History(Recorded(log, id, StateChanged(from, to), clock).events, id) == History(log.events, id) + [to]
  {
    RecordedFront(log, id, StateChanged(from, to), clock);
  }

  lemma FirstLossOutcome(w: World, execution: nat, outside: Outside, delivery: Delivery, clock: Clock)
    requires WorldOk(w) && w.waiting != [] && w.data.run.status == Queued
    requires delivery.RequestLost? || delivery.ResponseLost?
    ensures var moved := Moved(w.data, Executing, clock);
      && moved.Ok?
      && ExecutionResumed(w, execution, outside, delivery, clock).world.data
         == MarkedRecoverable(SendStarted(moved.value, clock), ActionExecuting, delivery.reason, clock)
  {
    SubmissionRecords(w.runtime, w.data.id, w.waiting[0], execution, outside);
    LostSend(w.data, Moved(w.data, Executing, clock).value, w.waiting[0], w.runtime, execution, outside, delivery,
             clock);
  }

  lemma LostSend(before: Data, d: Data, request: Request, runtime: Runtime, execution: nat, outside: Outside,
                 delivery: Delivery, clock: Clock)
    requires delivery.RequestLost? || delivery.ResponseLost?
    requires Answer(runtime, request, execution, outside).Ok?
    ensures Sent(before, d, request, runtime, execution, outside, delivery, clock).0.data
            == MarkedRecoverable(SendStarted(d, clock), ActionExecuting, delivery.reason, clock)
  {
  }

  lemma RecoveredOutcome(w: World, execution: nat, outside: Outside, delivery: Delivery, clock: Clock)
    requires WorldOk(w) && HasRecoverableError(w.data.run)
    requires delivery.RequestLost? || delivery.ResponseLost?
    ensures w.data.run.status == Executing
    ensures ExecutionBegun(w, execution, outside, delivery, clock).world.data
            == MarkedRecoverable(SendStarted(w.data, clock), ActionExecuting, delivery.reason, clock)
  {
    SubmissionRecords(w.runtime, w.data.id, ExecutionRequest(w.data), execution, outside);
    LostSend(w.data, w.data, ExecutionRequest(w.data), w.runtime, execution, outside, delivery, clock);
  }

  lemma RecoveredHistory(d: Data, reason: RecoverableError, clock: Clock)
    ensures History(MarkedRecoverable(SendStarted(d, clock), ActionExecuting, reason, clock).log.events, d.id)
            == History(d.log.events, d.id)
  {
    var one := Recorded(d.log, d.id, Note("EXTERNAL_EXECUTION_STARTED"), clock);
    var two := Recorded(one, d.id, Note("NOTION_PAGE_CREATE_STARTED"), clock);
    NoteHistory(d.log, d.id, "EXTERNAL_EXECUTION_STARTED", clock);
    NoteHistory(one, d.id, "NOTION_PAGE_CREATE_STARTED", clock);
    NoteHistory(two, d.id, "RUNTIME_RECOVERABLE_FAILURE", clock);
  }

  lemma NoteHistory(log: Log, id: nat, name: string, clock: Clock)
    ensures History(Recorded(log, id, Note(name), clock).events, id) == History(log.events, id)
  {
    RecordedFront(log, id, Note(name), clock);
  }

  // ----- One claim

  lemma EarlyKeepsClaim(w: World, step: Step, clock: Clock)
    requires w.data.run.plan != NoPlan && Plans(step)
    ensures Next(w, step, clock).world.data.run.plan != NoPlan
  {
  }

  lemma DecidingKeepsClaim(w: World, step: Step, clock: Clock)
    requires w.data.run.plan != NoPlan && Decides(step)
    ensures Next(w, step, clock).world.data.run.plan != NoPlan
  {
    if step.Resolve? {
      ResolvingKeepsPlan(w.data, step.approvalId, step.payload, step.approve, step.now, clock);
    }
  }

  lemma ResolvingKeepsPlan(d: Data, approvalId: nat, payload: Option<Payload>, approve: bool, now: int, clock: Clock)
    ensures Resolved(d, approvalId, payload, approve, now, clock).data.run.plan == d.run.plan
  {
    var i := FindApproval(d.approvals, approvalId);
    if i < |d.approvals| {
      var j := FindAction(d.actions, d.approvals[i].actionId);
      if j < |d.actions| {
        ConcludingKeepsPlan(d, Decided(d, i, j, approve, now, clock), approve, now, clock);
      }
    }
  }

  lemma ConcludingKeepsPlan(d: Data, decided: Data, approve: bool, now: int, clock: Clock)
    requires decided.run == d.run
    ensures Concluded(d, decided, approve, now, clock).data.run.plan == d.run.plan
  {
    ExpiredAll(decided, |decided.approvals|, now, clock);
  }

  lemma PlanningKeepsClaim(d: Data, text: string, proposals: seq<Proposal>, clock: Clock)
    requires d.run.plan != NoPlan && d.actions == [] && d.approvals == []
    ensures Planned(d, text, proposals, clock).data.run.plan != NoPlan
  {
    var summarized := Noted(d.(run := d.run.(plan := Summarized(text))), "SUMMARY_GENERATED", clock);
    var ready := Moved(summarized, PlanReady, clock);
    if ready.Ok? {
      ActionsAdded(ready.value, proposals, clock);
      var proposed := WithActions(ready.value, proposals, clock);
      RequestsAdded(proposed, |proposed.actions|, clock);
    }
  }

  lemma RefusedPlanKeepsClaim(d: Data, text: string, proposals: seq<Proposal>, clock: Clock)
    requires d.run.status != Analyzing
    ensures Planned(d, text, proposals, clock).data.run.plan == d.run.plan
  {
  }

  lemma ProposingKeepsClaim(d: Data, text: string, proposals: seq<Proposal>, clock: Clock)
    requires RowsOk(d) && d.run.plan != NoPlan
    ensures Planned(d, text, proposals, clock).data.run.plan != NoPlan
  {
    if d.run.status == Analyzing {
      PlanningKeepsClaim(d, text, proposals, clock);
    } else {
      RefusedPlanKeepsClaim(d, text, proposals, clock);
    }
  }

  lemma ProposalKeepsClaim(w: World, step: Step, clock: Clock)
    requires RowsOk(w.data) && w.data.run.plan != NoPlan && Proposes(step)
    ensures Next(w, step, clock).world.data.run.plan != NoPlan
  {
    match step
    case FinishSummary(text, destination) =>
      ProposingKeepsClaim(w.data, text, [Proposal(CreateNotionStudyPage, Page(text, destination))], clock);
    case FinishOtherPlan(text, proposals) => ProposingKeepsClaim(w.data, text, proposals, clock);
  }

  lemma SettlingKeepsPlan(d: Data, key: Key, snapshot: Snapshot, clock: Clock)
    ensures var (at, result) := Settled(d, key, snapshot, clock);
      result.Ok? ==> result.value.run.plan == d.run.plan
  {
  }

  lemma SendingKeepsPlan(before: Data, d: Data, request: Request, runtime: Runtime, id: nat, outside: Outside,
                         delivery: Delivery, clock: Clock)
    requires d.run.plan == before.run.plan
    ensures Sent(before, d, request, runtime, id, outside, delivery, clock).0.data.run.plan == before.run.plan
  {
    var started := SendStarted(d, clock);
    var answer := Answer(runtime, request, id, outside);
    if answer.Ok? {
      SettlingKeepsPlan(started, request.key, Shown(answer.value, delivery), clock);
    }
  }

  lemma BeginningKeepsPlan(w: World, id: nat, outside: Outside, delivery: Delivery, clock: Clock)
    ensures ExecutionBegun(w, id, outside, delivery, clock).world.data.run.plan == w.data.run.plan
  {
    if Executable(w.data) {
      SendingKeepsPlan(w.data, w.data, ExecutionRequest(w.data), w.runtime, id, outside, delivery, clock);
    }
  }

  lemma ResumingKeepsPlan(w: World, id: nat, outside: Outside, delivery: Delivery, clock: Clock)
    ensures ExecutionResumed(w, id, outside, delivery, clock).world.data.run.plan == w.data.run.plan
  {
    var moved := Moved(w.data, Executing, clock);
    if w.waiting != [] && moved.Ok? {
      SendingKeepsPlan(w.data, moved.value, w.waiting[0], w.runtime, id, outside, delivery, clock);
    }
  }

  lemma StepKeepsClaim(w: World, step: Step, clock: Clock)
    requires WorldOk(w) && w.data.run.plan != NoPlan
    ensures Next(w, step, clock).world.data.run.plan != NoPlan
  {
    if Plans(step) {
      EarlyKeepsClaim(w, step, clock);
    } else if Proposes(step) {
      ProposalKeepsClaim(w, step, clock);
    } else if Decides(step) {
      DecidingKeepsClaim(w, step, clock);
    } else if step.Execute? {
      BeginningKeepsPlan(w, step.id, step.outside, step.delivery, clock);
    } else if step.Resume? {
      ResumingKeepsPlan(w, step.id, step.outside, step.delivery, clock);
    }
  }

  lemma {:induction false} ClaimStays(w: World, steps: seq<Timed>)
    requires WorldOk(w) && w.data.run.plan != NoPlan
    ensures WorldOk(After(w, steps)) && After(w, steps).data.run.plan != NoPlan
  {
    if steps != [] {
      var last := steps[|steps| - 1];
      ClaimStays(w, steps[..|steps| - 1]);
      StepOk(After(w, steps[..|steps| - 1]), last.step, last.clock);
      StepKeepsClaim(After(w, steps[..|steps| - 1]), last.step, last.clock);
    }
  }

  /** Of all calls for a summary only one ever claims it: once a claim has been accepted, every later
      one is refused, whatever happens in between. */
  lemma OneClaimOnly(id: nat, owner: nat, steps: seq<Timed>, first: Clock, between: seq<Timed>, again: Clock)
    requires SummaryClaimed(After(Start(id, owner), steps).data, first).error.None?
    ensures var claimed := Next(After(Start(id, owner), steps), ClaimSummary, first).world;
      SummaryClaimed(After(claimed, between).data, again).error == Some(LearnWorkflowInvalidState)
  {
    var w := After(Start(id, owner), steps);
    ReachableOk(id, owner, steps);
    StepOk(w, ClaimSummary, first);
    ClaimStays(Next(w, ClaimSummary, first).world, between);
  }
}
