/** Retries, refused reports, and a full run from upload to published page. */
module LearnRetries {
  import opened Wrappers
  import opened WorkflowStates
  import opened AuditTrail
  import opened Payloads
  import opened LocalRuntime
  import opened LearnRun
  import opened LearnRows
  import opened LearnProtocol
  import opened LearnTheorems

  // ----- Retries

  lemma SentKeepsRecords(before: Data, d: Data, request: Request, runtime: Runtime, id: nat, outside: Outside,
                         delivery: Delivery, clock: Clock, key: Key)
    requires key in runtime.executions
    ensures var after := Sent(before, d, request, runtime, id, outside, delivery, clock).1;
      key in after.executions && after.executions[key] == runtime.executions[key]
  {
  }

  lemma StepKeepsRecords(w: World, step: Step, clock: Clock, key: Key)
    requires key in w.runtime.executions
    ensures var after := Next(w, step, clock).world.runtime;
      key in after.executions && after.executions[key] == w.runtime.executions[key]
  {
    var d := w.data;
    match step
    case Execute(id, outside, delivery) =>
      if Executable(d) {
        SentKeepsRecords(d, d, ExecutionRequest(d), w.runtime, id, outside, delivery, clock, key);
      }
    case Resume(id, outside, delivery) =>
      if w.waiting != [] && Moved(d, Executing, clock).Ok? {
        SentKeepsRecords(d, Moved(d, Executing, clock).value, w.waiting[0], w.runtime, id, outside, delivery, clock,
                         key);
      }
    case _ =>
  }

  lemma {:induction false} RecordsStay(w: World, steps: seq<Timed>, key: Key)
    requires key in w.runtime.executions
    ensures var after := After(w, steps).runtime;
      key in after.executions && after.executions[key] == w.runtime.executions[key]
  {
    if steps != [] {
      var last := steps[|steps| - 1];
      RecordsStay(w, steps[..|steps| - 1], key);
      StepKeepsRecords(After(w, steps[..|steps| - 1]), last.step, last.clock, key);
    }
  }

  lemma {:induction false} InvariantStays(w: World, steps: seq<Timed>)
    requires WorldOk(w)
    ensures WorldOk(After(w, steps)) && After(w, steps).data.id == w.data.id
  {
    if steps != [] {
      var last := steps[|steps| - 1];
      var before := After(w, steps[..|steps| - 1]);
      InvariantStays(w, steps[..|steps| - 1]);
      StepOk(before, last.step, last.clock);
      NextSameRun(before, last.step, last.clock);
    }
  }

  /** A later state of the run in which only the same request can be sent. */
  predicate KeepsRequest(d: Data, request: Request, later: Data) {
    later.id == d.id && Submittable(later) && ExecutionRequest(later) == request
  }

  lemma ReceivedKeepsRequest(before: Data, started: Data, request: Request, answer: Result<Snapshot, Error>,
                             delivery: Delivery, clock: Clock)
    requires ReadyToSend(before, started, request)
    ensures KeepsRequest(before, request, Received(before, started, request.key, answer, delivery, clock).data)
  {
    if answer.Ok? {
      SettledRequest(started, request, Shown(answer.value, delivery), clock);
    }
  }

  lemma SentKeepsRequest(before: Data, d: Data, request: Request, runtime: Runtime, id: nat, outside: Outside,
                         delivery: Delivery, clock: Clock)
    requires ReadyToSend(before, d, request)
    ensures KeepsRequest(before, request, Sent(before, d, request, runtime, id, outside, delivery, clock).0.data)
  {
    StartedReady(before, d, request, clock);
    ReceivedKeepsRequest(before, SendStarted(d, clock), request, Answer(runtime, request, id, outside), delivery,
                         clock);
  }

  lemma BegunKeepsRequest(w: World, id: nat, outside: Outside, delivery: Delivery, clock: Clock)
    requires WorldOk(w) && Submittable(w.data)
    ensures KeepsRequest(w.data, ExecutionRequest(w.data), ExecutionBegun(w, id, outside, delivery, clock).world.data)
  {
    if HasRecoverableError(w.data.run) {
      SentKeepsRequest(w.data, w.data, ExecutionRequest(w.data), w.runtime, id, outside, delivery, clock);
    }
  }

  lemma ResumedKeepsRequest(w: World, id: nat, outside: Outside, delivery: Delivery, clock: Clock)
    requires WorldOk(w) && Submittable(w.data)
    ensures KeepsRequest(w.data, ExecutionRequest(w.data), ExecutionResumed(w, id, outside, delivery, clock).world.data)
  {
    var moved := Moved(w.data, Executing, clock);
    if w.waiting != [] && moved.Ok? {
      SentKeepsRequest(w.data, moved.value, w.waiting[0], w.runtime, id, outside, delivery, clock);
    }
  }

  lemma StepKeepsRequest(w: World, step: Step, clock: Clock)
    requires WorldOk(w) && Submittable(w.data)
    ensures KeepsRequest(w.data, ExecutionRequest(w.data), Next(w, step, clock).world.data)
  {
    if OnlyRows(step) {
      StepSettles(w, step, clock);
    } else if step.Execute? {
      BegunKeepsRequest(w, step.id, step.outside, step.delivery, clock);
    } else if step.Resume? {
      ResumedKeepsRequest(w, step.id, step.outside, step.delivery, clock);
    }
  }

  lemma {:induction false} RequestStays(w: World, steps: seq<Timed>)
    requires WorldOk(w) && Submittable(w.data)
    ensures WorldOk(After(w, steps)) && KeepsRequest(w.data, ExecutionRequest(w.data), After(w, steps).data)
  {
    if steps != [] {
      var last := steps[|steps| - 1];
      var before := After(w, steps[..|steps| - 1]);
      RequestStays(w, steps[..|steps| - 1]);
      StepOk(before, last.step, last.clock);
      StepKeepsRequest(before, last.step, last.clock);
    }
  }

  /** In this world nothing but the given request can be sent, by a waiting call or by a new one. */
  predicate SendsOnly(w: World, request: Request) {
    && Executable(w.data)
    && ExecutionRequest(w.data) == request
    && forall r :: r in w.waiting ==> r == request
  }

  lemma OkSendsOnly(w: World, request: Request)
    requires WorldOk(w) && Submittable(w.data) && ExecutionRequest(w.data) == request
    ensures SendsOnly(w, request)
  {
  }

  /** From the first lock of an execution on, every submission and every retry sends the identical
      request, whatever happens in between: whether or not the runtime ever recorded one, and however
      often requests and responses are lost. */
  lemma RetriesResendTheSame(id: nat, owner: nat, steps: seq<Timed>, more: seq<Timed>)
    requires var w := After(Start(id, owner), steps);
      w.waiting != [] || w.data.run.status in {Queued, Executing}
    ensures var w := After(Start(id, owner), steps);
      && Executable(w.data)
      && (w.waiting != [] ==> w.waiting[0] == ExecutionRequest(w.data))
      && SendsOnly(After(w, more), ExecutionRequest(w.data))
  {
    var w := After(Start(id, owner), steps);
    ReachableOk(id, owner, steps);
    RequestStays(w, more);
    OkSendsOnly(After(w, more), ExecutionRequest(w.data));
  }

  /** A later world in which only the request that is already recorded under the key can be sent. */
  predicate ResendsSame(w: World, later: World, key: Key) {
    && Executable(w.data) && Executable(later.data)
    && ExecutionRequest(later.data) == ExecutionRequest(w.data)
    && ExecutionRequest(later.data).key == key
    && key in w.runtime.executions && key in later.runtime.executions
    && later.runtime.executions[key] == w.runtime.executions[key]
    && ExecutionRequest(later.data).payload == w.runtime.executions[key].payload
    && forall r :: r in later.waiting ==> r == ExecutionRequest(later.data)
  }

  /** Once a request has reached the runtime, every later request of the run meets the first record,
      with the payload it holds. */
  lemma RetriesMeetTheRecord(id: nat, owner: nat, steps: seq<Timed>, more: seq<Timed>, key: Key)
    requires key in After(Start(id, owner), steps).runtime.executions && Own(id, key)
    ensures ResendsSame(After(Start(id, owner), steps), After(After(Start(id, owner), steps), more), key)
  {
    var w := After(Start(id, owner), steps);
    ReachableOk(id, owner, steps);
    SameRun(Start(id, owner), steps);
    InvariantStays(w, more);
    RecordsStay(w, more, key);
    SameApproval(w, After(w, more), key);
  }

  lemma SameApproval(w: World, later: World, key: Key)
    requires WorldOk(w) && WorldOk(later) && later.data.id == w.data.id && Own(w.data.id, key)
    requires key in w.runtime.executions && key in later.runtime.executions
    requires later.runtime.executions[key] == w.runtime.executions[key]
    ensures ResendsSame(w, later, key)
  {
  }

  // ----- Reports of an execution that is still under way

  /** What becomes of a call to which the runtime reports this status. */
  function ReportVerdict(status: ExecutionStatus): Option<Error> {
    if status == RunQueued then Some(InvalidWorkflowTransition) else None
  }

  lemma SentReported(before: Data, d: Data, request: Request, runtime: Runtime, execution: nat, outside: Outside,
                     status: ExecutionStatus, clock: Clock)
    requires d.run.status == Executing && Answer(runtime, request, execution, outside).Ok?
    ensures var (outcome, after) := Sent(before, d, request, runtime, execution, outside, Reported(status), clock);
      && outcome.error == ReportVerdict(status)
      && (status == RunQueued ==> SameRows(before, outcome.data))
      && after == Submitted(runtime, request, execution, outside)
  {
  }

  /** A first submission fails on a report exactly when the report is "queued", which asks for a step
      back that the table refuses: the rows roll back, although the runtime has the execution. */
  lemma FirstReportFailsIff(id: nat, owner: nat, steps: seq<Timed>, execution: nat, outside: Outside,
                            status: ExecutionStatus, clock: Clock)
    requires var w := After(Start(id, owner), steps);
      w.waiting != [] && w.data.run.status == Queued
    ensures var w := After(Start(id, owner), steps);
      var effect := ExecutionResumed(w, execution, outside, Reported(status), clock);
      && effect.error == ReportVerdict(status)
      && (status == RunQueued ==> SameRows(w.data, effect.world.data))
      && w.waiting[0].key in effect.world.runtime.executions
  {
    ReachableOk(id, owner, steps);
    var w := After(Start(id, owner), steps);
    FirstReported(w, execution, outside, status, clock);
  }

  lemma FirstReported(w: World, execution: nat, outside: Outside, status: ExecutionStatus, clock: Clock)
    requires WorldOk(w) && w.waiting != [] && w.data.run.status == Queued
    ensures var effect := ExecutionResumed(w, execution, outside, Reported(status), clock);
      && effect.error == ReportVerdict(status)
      && (status == RunQueued ==> SameRows(w.data, effect.world.data))
      && w.waiting[0].key in effect.world.runtime.executions
  {
    var moved := Moved(w.data, Executing, clock);
    SubmissionRecords(w.runtime, w.data.id, w.waiting[0], execution, outside);
    SentReported(w.data, moved.value, w.waiting[0], w.runtime, execution, outside, status, clock);
  }

  /** A retry fails on a report in the same case and no other. */
  lemma RetryReportFailsIff(id: nat, owner: nat, steps: seq<Timed>, execution: nat, outside: Outside,
                            status: ExecutionStatus, clock: Clock)
    requires HasRecoverableError(After(Start(id, owner), steps).data.run)
    ensures var w := After(Start(id, owner), steps);
      var effect := ExecutionBegun(w, execution, outside, Reported(status), clock);
      && effect.error == ReportVerdict(status)
      && (status == RunQueued ==> SameRows(w.data, effect.world.data))
  {
    ReachableOk(id, owner, steps);
    RetryReported(After(Start(id, owner), steps), execution, outside, status, clock);
  }

  lemma RetryReported(w: World, execution: nat, outside: Outside, status: ExecutionStatus, clock: Clock)
    requires WorldOk(w) && HasRecoverableError(w.data.run)
    ensures var effect := ExecutionBegun(w, execution, outside, Reported(status), clock);
      && effect.error == ReportVerdict(status)
      && (status == RunQueued ==> SameRows(w.data, effect.world.data))
  {
    SubmissionRecords(w.runtime, w.data.id, ExecutionRequest(w.data), execution, outside);
    SentReported(w.data, w.data, ExecutionRequest(w.data), w.runtime, execution, outside, status, clock);
  }

  // ----- Answers of the in-process runtime

  lemma SentAnswered(before: Data, d: Data, request: Request, runtime: Runtime, execution: nat, outside: Outside,
                     clock: Clock)
    requires d.run.status == Executing && request.operation == CreateNotionStudyPage && Sound(runtime)
    requires Answer(runtime, request, execution, outside).Ok?
    ensures Sent(before, d, request, runtime, execution, outside, Answered, clock).0.error == None
  {
    SubmitKeepsSound(runtime, request, execution, outside);
    var snapshot := Answer(runtime, request, execution, outside).value;
    assert SingleOutcome(snapshot);
    SettledSingle(SendStarted(d, clock), request.key, snapshot, clock);
  }

  lemma SettledSingle(d: Data, key: Key, snapshot: Snapshot, clock: Clock)
    requires d.run.status == Executing && SingleOutcome(snapshot)
    ensures Settled(d, key, snapshot, clock).1.Ok?
  {
  }

  /** A runtime that answers with the record of the call, as the in-process one always does, never
      makes an execution fail: no call is followed by a rollback, so no record of one is lost. */
  lemma AnswersAlwaysCommit(id: nat, owner: nat, steps: seq<Timed>, execution: nat, outside: Outside, clock: Clock)
    ensures var w := After(Start(id, owner), steps);
      && (w.waiting != [] && w.data.run.status == Queued ==>
            ExecutionResumed(w, execution, outside, Answered, clock).error == None)
      && (HasRecoverableError(w.data.run) ==> ExecutionBegun(w, execution, outside, Answered, clock).error == None)
  {
    ReachableOk(id, owner, steps);
    var w := After(Start(id, owner), steps);
    if w.waiting != [] && w.data.run.status == Queued {
      FirstAnswered(w, execution, outside, clock);
    }
    if HasRecoverableError(w.data.run) {
      RetryAnswered(w, execution, outside, clock);
    }
  }

  lemma FirstAnswered(w: World, execution: nat, outside: Outside, clock: Clock)
    requires WorldOk(w) && w.waiting != [] && w.data.run.status == Queued
    ensures ExecutionResumed(w, execution, outside, Answered, clock).error == None
  {
    SubmissionRecords(w.runtime, w.data.id, w.waiting[0], execution, outside);
    SentAnswered(w.data, Moved(w.data, Executing, clock).value, w.waiting[0], w.runtime, execution, outside, clock);
  }

  lemma RetryAnswered(w: World, execution: nat, outside: Outside, clock: Clock)
    requires WorldOk(w) && HasRecoverableError(w.data.run)
    ensures ExecutionBegun(w, execution, outside, Answered, clock).error == None
  {
    SubmissionRecords(w.runtime, w.data.id, ExecutionRequest(w.data), execution, outside);
    SentAnswered(w.data, w.data, ExecutionRequest(w.data), w.runtime, execution, outside, clock);
  }

  // ----- A whole run

  const NOWHERE := Destination(None, None, None, None, None)
  const SHELF := Destination(Some("notion"), Some("shelf"), Some("Shelf"), None, None)
  const WORLD_OUTSIDE := Outside(true, (n: nat) => Created("page-1"))

  function Standing(): Clock {
    (n: nat) => 0
  }

  const SUMMARIZING := Run(Analyzing, Some(0), None, Plan.Summarizing, None, None)
  const AWAITING := Run(AwaitingApproval, Some(0), None, Plan.Summarized("notes"), None, None)
  const APPROVED := AWAITING.(status := Approved)
  const QUEUED := AWAITING.(status := Queued)
  const UNCERTAIN := AWAITING.(status := Executing, errorCode := Some(Recoverable(RuntimeRequestTimeout)))
  const NOTES := Page("notes", NOWHERE)
  const MOVED := Page("notes", SHELF)
  const PENDING := Approval(0, 0, Pending, NOTES, None, None, None)
  const GRANTED := Approval(0, 0, Granted, NOTES, Some(NOTES), Some(1), Some(2))
  const REQUESTED := Request(CreateNotionStudyPage, MOVED, LearnKey(1, 0))

  function OnPage(payload: Payload, status: ActionStatus): Action {
    Action(0, CreateNotionStudyPage, payload, status)
  }

  predicate Shows(d: Data, run: Run, actions: seq<Action>, approvals: seq<Approval>) {
    d == Data(1, 2, Parsed, run, actions, approvals, None, d.log)
  }

  function Reached(steps: seq<Timed>): World {
    After(Start(1, 2), steps)
  }

  /** A world reached before anything was sent. */
  predicate Before(steps: seq<Timed>, run: Run, actions: seq<Action>, approvals: seq<Approval>) {
    Reached(steps) == World(Data(1, 2, Parsed, run, actions, approvals, None, Reached(steps).data.log), FRESH, [])
  }

  lemma Step(steps: seq<Timed>, step: Step, clock: Clock) returns (more: seq<Timed>)
    ensures Reached(more) == Next(Reached(steps), step, clock).world
  {
    more := steps + [Timed(step, clock)];
    assert more[..|steps|] == steps;
  }

  lemma ExecuteStep(steps: seq<Timed>, id: nat, delivery: Delivery) returns (more: seq<Timed>)
    ensures Reached(more) == ExecutionBegun(Reached(steps), id, WORLD_OUTSIDE, delivery, Standing()).world
  {
    more := Step(steps, Execute(id, WORLD_OUTSIDE, delivery), Standing());
  }

  lemma ResumeStep(steps: seq<Timed>, id: nat, delivery: Delivery) returns (more: seq<Timed>)
    ensures Reached(more) == ExecutionResumed(Reached(steps), id, WORLD_OUTSIDE, delivery, Standing()).world
  {
    more := Step(steps, Resume(id, WORLD_OUTSIDE, delivery), Standing());
  }

  lemma ResolveStep(steps: seq<Timed>, approvalId: nat, payload: Option<Payload>, approve: bool, now: int)
    returns (more: seq<Timed>)
    ensures var w := Reached(steps);
      Reached(more) == w.(data := Resolved(w.data, approvalId, payload, approve, now, Standing()).data)
  {
    more := Step(steps, Resolve(approvalId, payload, approve, now), Standing());
  }

  lemma Analysed() returns (steps: seq<Timed>)
    ensures Before(steps, SUMMARIZING, [], [])
  {
    steps := Step([], StartAnalysis, Standing());
    steps := Step(steps, FinishParsing, Standing());
    steps := Step(steps, ClaimSummary, Standing());
  }

  lemma SoleIds(d: Data)
    requires |d.actions| == 1 && |d.approvals| == 1 && d.actions[0].id == 0 && d.approvals[0].actionId == 0
    ensures ActionIds(d.actions) == {0} && ApprovedActionIds(d.approvals) == {0}
  {
    assert d.actions[0] in d.actions && d.approvals[0] in d.approvals;
  }

  lemma RequestShows(before: Data, d: Data)
    requires Shows(d, AWAITING.(status := PlanReady), [OnPage(NOTES, Proposed)], [])
    ensures Shows(Requested(before, d, Standing()).data, AWAITING, [OnPage(NOTES, Proposed)], [PENDING])
  {
    RequestsAdded(d, 1, Standing());
    assert d.actions[..1] == d.actions;
    var made := WithRequests(d, 1, Standing());
    assert made.approvals == [PENDING];
    SoleIds(made);
  }

  lemma SummaryAsks(d: Data)
    requires Shows(d, SUMMARIZING, [], [])
    ensures Shows(SummaryFinished(d, "notes", NOWHERE, Standing()).data, AWAITING, [OnPage(NOTES, Proposed)], [PENDING])
  {
    var summarized := Noted(d.(run := d.run.(plan := Plan.Summarized("notes"))), "SUMMARY_GENERATED", Standing());
    var ready := Moved(summarized, PlanReady, Standing());
    ActionsAdded(ready.value, [Proposal(CreateNotionStudyPage, NOTES)], Standing());
    var proposed := WithActions(ready.value, [Proposal(CreateNotionStudyPage, NOTES)], Standing());
    assert proposed.actions == [OnPage(NOTES, Proposed)];
    RequestShows(d, proposed);
  }

  lemma Asked() returns (steps: seq<Timed>)
    ensures Before(steps, AWAITING, [OnPage(NOTES, Proposed)], [PENDING])
  {
    steps := Analysed();
    SummaryAsks(Reached(steps).data);
    steps := Step(steps, FinishSummary("notes", NOWHERE), Standing());
  }

  lemma OwnerApproves(d: Data)
    requires Shows(d, AWAITING, [OnPage(NOTES, Proposed)], [PENDING])
    ensures Shows(Resolved(d, 0, Some(NOTES), true, 1, Standing()).data, APPROVED, [OnPage(NOTES, ActionApproved)],
                  [GRANTED])
  {
    assert FindApproval(d.approvals, 0) == 0 && FindAction(d.actions, 0) == 0;
    var decided := Decided(d, 0, 0, true, 1, Standing());
    assert decided.approvals == [GRANTED];
    SoleIds(decided);
  }

  lemma Allowed() returns (steps: seq<Timed>)
    ensures Before(steps, APPROVED, [OnPage(NOTES, ActionApproved)], [GRANTED])
  {
    steps := Asked();
    OwnerApproves(Reached(steps).data);
    steps := ResolveStep(steps, 0, Some(NOTES), true, 1);
  }

  lemma OwnerMoves(d: Data)
    requires Shows(d, APPROVED, [OnPage(NOTES, ActionApproved)], [GRANTED])
    ensures Shows(DestinationUpdated(d, SHELF, Standing()).data, APPROVED, [OnPage(MOVED, ActionApproved)], [GRANTED])
  {
  }

  lemma Redirected() returns (steps: seq<Timed>)
    ensures Before(steps, APPROVED, [OnPage(MOVED, ActionApproved)], [GRANTED])
  {
    steps := Allowed();
    OwnerMoves(Reached(steps).data);
    steps := Step(steps, UpdateDestination(SHELF), Standing());
  }

  lemma ExecutionQueues(w: World)
    requires Shows(w.data, APPROVED, [OnPage(MOVED, ActionApproved)], [GRANTED]) && w.waiting == []
    ensures var later := ExecutionBegun(w, 7, WORLD_OUTSIDE, Answered, Standing()).world;
      && Shows(later.data, QUEUED, [OnPage(MOVED, ActionQueued)], [GRANTED])
      && later.waiting == [REQUESTED] && later.runtime == w.runtime
  {
    SoleIds(w.data);
    assert ExecutionRequest(w.data) == REQUESTED;
  }

  lemma Waiting() returns (steps: seq<Timed>)
    ensures var w := Reached(steps);
      && Shows(w.data, QUEUED, [OnPage(MOVED, ActionQueued)], [GRANTED])
      && w.waiting == [REQUESTED] && w.runtime == FRESH
  {
    steps := Redirected();
    ExecutionQueues(Reached(steps));
    steps := ExecuteStep(steps, 7, Answered);
  }

  lemma ResponseIsLost(w: World)
    requires Shows(w.data, QUEUED, [OnPage(MOVED, ActionQueued)], [GRANTED]) && w.waiting == [REQUESTED]
            && w.runtime == FRESH
    ensures var later := ExecutionResumed(w, 7, WORLD_OUTSIDE, ResponseLost(RuntimeRequestTimeout), Standing()).world;
      && Shows(later.data, UNCERTAIN, [OnPage(MOVED, ActionExecuting)], [GRANTED])
      && later.runtime == Submitted(FRESH, REQUESTED, 7, WORLD_OUTSIDE)
  {
  }

  lemma Unanswered() returns (steps: seq<Timed>)
    ensures var w := Reached(steps);
      && Shows(w.data, UNCERTAIN, [OnPage(MOVED, ActionExecuting)], [GRANTED])
      && w.runtime == Submitted(FRESH, REQUESTED, 7, WORLD_OUTSIDE)
  {
    steps := Waiting();
    ResponseIsLost(Reached(steps));
    steps := ResumeStep(steps, 7, ResponseLost(RuntimeRequestTimeout));
  }

  /** A completed run whose one call went elsewhere than its approved payload says. */
  predicate PublishedElsewhere(w: World) {
    && w.data.run.status == Completed
    && w.data.artifact == Some(Artifact(LearnKey(1, 0), "page-1"))
    && w.runtime.calls == [Call(LearnKey(1, 0), None, MOVED)]
    && w.data.approvals == [GRANTED]
    && GRANTED.approved != Some(MOVED)
  }

  lemma RetrySettles(d: Data)
    requires Shows(d, UNCERTAIN, [OnPage(MOVED, ActionExecuting)], [GRANTED])
    ensures var (at, result) := Settled(d, LearnKey(1, 0), Executed(REQUESTED, 7, WORLD_OUTSIDE), Standing());
      && result.Ok?
      && result.value.run.status == Completed
      && result.value.artifact == Some(Artifact(LearnKey(1, 0), "page-1"))
      && result.value.approvals == [GRANTED]
  {
  }

  lemma RetrySends(d: Data, runtime: Runtime)
    requires Shows(d, UNCERTAIN, [OnPage(MOVED, ActionExecuting)], [GRANTED])
    requires runtime == Submitted(FRESH, REQUESTED, 7, WORLD_OUTSIDE)
    ensures var (outcome, after) := Sent(d, d, REQUESTED, runtime, 8, WORLD_OUTSIDE, Answered, Standing());
      PublishedElsewhere(World(outcome.data, after, []))
  {
    RetrySettles(SendStarted(d, Standing()));
    assert Answer(runtime, REQUESTED, 8, WORLD_OUTSIDE) == Ok(Executed(REQUESTED, 7, WORLD_OUTSIDE));
  }

  lemma RetryCompletes(w: World)
    requires Shows(w.data, UNCERTAIN, [OnPage(MOVED, ActionExecuting)], [GRANTED])
    requires w.runtime == Submitted(FRESH, REQUESTED, 7, WORLD_OUTSIDE)
    ensures PublishedElsewhere(ExecutionBegun(w, 8, WORLD_OUTSIDE, Answered, Standing()).world)
  {
    assert ExecutionRequest(w.data) == REQUESTED;
    RetrySends(w.data, w.runtime);
  }

  /** A run that publishes: its response is lost once, the retry replays the recorded result, the
      provider is called a single time, and the page goes where its owner sent it after approving. */
  lemma PublishedOnceElsewhere()
    ensures exists steps :: PublishedElsewhere(Reached(steps))
  {
    var steps := Unanswered();
    RetryCompletes(Reached(steps));
    var more := ExecuteStep(steps, 8, Answered);
    assert PublishedElsewhere(Reached(more));
  }
}
