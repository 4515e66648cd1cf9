/** Which started runs can still complete. */
module LearnCompletion {
  import opened Wrappers
  import opened WorkflowStates
  import opened AuditTrail
  import opened Payloads
  import opened LocalRuntime
  import opened LearnRun
  import opened LearnLog
  import opened LearnRows
  import opened LearnProtocol
  import opened LearnTheorems
  import opened LearnRetries

  predicate Started(d: Data) {
    d.run.status in {Queued, Executing}
  }

  /** A call is still to come: one waits for its second lock, or a retry is allowed. */
  predicate CallToCome(w: World) {
    w.waiting != [] || HasRecoverableError(w.data.run)
  }

  /** A started run with no call to come, or one that has ended in a cancel. */
  predicate Stranded(w: World) {
    (Started(w.data) && !CallToCome(w)) || w.data.run.status == Cancelled
  }

  /** What decides whether a call is to come is the same. */
  predicate SameProspect(d: Data, later: Data) {
    later.run.status == d.run.status && later.run.errorCode == d.run.errorCode
  }

  lemma PlanningIgnoresStarted(w: World, step: Step, clock: Clock)
    requires w.data.run.status in {Queued, Executing, Cancelled} && Plans(step)
    ensures SameProspect(w.data, Next(w, step, clock).world.data) && Next(w, step, clock).world.waiting == w.waiting
  {
  }

  lemma ProposalIsRefused(d: Data, text: string, proposals: seq<Proposal>, clock: Clock)
    requires d.run.status in {Queued, Executing, Cancelled}
    ensures SameProspect(d, Planned(d, text, proposals, clock).data)
  {
  }

  lemma ProposingIgnoresStarted(w: World, step: Step, clock: Clock)
    requires w.data.run.status in {Queued, Executing, Cancelled} && Proposes(step)
    ensures SameProspect(w.data, Next(w, step, clock).world.data) && Next(w, step, clock).world.waiting == w.waiting
  {
    match step
    case FinishSummary(text, destination) =>
      ProposalIsRefused(w.data, text, [Proposal(CreateNotionStudyPage, Page(text, destination))], clock);
    case FinishOtherPlan(text, proposals) => ProposalIsRefused(w.data, text, proposals, clock);
  }

  lemma StrandedStep(w: World, step: Step, clock: Clock)
    requires WorldOk(w) && Stranded(w)
    ensures Stranded(Next(w, step, clock).world)
  {
    if Plans(step) {
      PlanningIgnoresStarted(w, step, clock);
    } else if Proposes(step) {
      ProposingIgnoresStarted(w, step, clock);
    } else if w.data.run.status == Cancelled {
      EndedStaysEnded(w, step, clock);
    }
  }

  lemma {:induction false} StrandedStays(w: World, steps: seq<Timed>)
    requires WorldOk(w) && Stranded(w)
    ensures Stranded(After(w, steps))
  {
    if steps != [] {
      var last := steps[|steps| - 1];
      InvariantStays(w, steps[..|steps| - 1]);
      StrandedStays(w, steps[..|steps| - 1]);
      StrandedStep(After(w, steps[..|steps| - 1]), last.step, last.clock);
    }
  }

  /** The runtime has no record of the run's call, or that of a success. */
  predicate NotFailedYet(w: World) {
    var key := LearnKey(w.data.id, 0);
    key in w.runtime.executions ==> w.runtime.executions[key].snapshot.status == Succeeded
  }

  ghost predicate CanComplete(w: World) {
    exists more :: After(w, more).data.run.status == Completed
  }

  lemma CompletionNeeds(w: World, more: seq<Timed>)
    requires WorldOk(w) && Started(w.data) && After(w, more).data.run.status == Completed
    ensures CallToCome(w) && NotFailedYet(w)
  {
    InvariantStays(w, more);
    if !CallToCome(w) {
      StrandedStays(w, more);
    }
    var key := LearnKey(w.data.id, 0);
    if key in w.runtime.executions {
      RecordsStay(w, more, key);
      assert ArtifactOk(After(w, more).data, After(w, more).runtime);
    }
  }

  /** A provider that accepts whatever it is sent. */
  function Obliging(): Outside {
    Outside(true, (n: nat) => Created("page"))
  }

  lemma ObligingAnswer(runtime: Runtime, request: Request)
    requires Sound(runtime) && request.operation == CreateNotionStudyPage
    requires request.key in runtime.executions ==>
               && runtime.executions[request.key].payload == request.payload
               && runtime.executions[request.key].operation == request.operation
               && runtime.executions[request.key].snapshot.status == Succeeded
    ensures var answer := Answer(runtime, request, 0, Obliging());
      answer.Ok? && answer.value.status == Succeeded && answer.value.result.Some? && answer.value.result.value.Single?
  {
  }

  lemma SuccessCompletes(before: Data, d: Data, request: Request, runtime: Runtime, clock: Clock)
    requires d.run.status == Executing && Answer(runtime, request, 0, Obliging()).Ok?
    requires var snapshot := Answer(runtime, request, 0, Obliging()).value;
      snapshot.status == Succeeded && snapshot.result.Some? && snapshot.result.value.Single?
    ensures Sent(before, d, request, runtime, 0, Obliging(), Answered, clock).0.data.run.status == Completed
  {
  }

  lemma RequestCanSucceed(w: World)
    requires WorldOk(w) && Submittable(w.data) && NotFailedYet(w)
    ensures var answer := Answer(w.runtime, ExecutionRequest(w.data), 0, Obliging());
      answer.Ok? && answer.value.status == Succeeded && answer.value.result.Some? && answer.value.result.value.Single?
  {
    ObligingAnswer(w.runtime, ExecutionRequest(w.data));
  }

  lemma WaitingCanComplete(w: World, clock: Clock)
    requires WorldOk(w) && NotFailedYet(w) && Started(w.data) && w.waiting != []
    ensures ExecutionResumed(w, 0, Obliging(), Answered, clock).world.data.run.status == Completed
  {
    RequestCanSucceed(w);
    SuccessCompletes(w.data, Moved(w.data, Executing, clock).value, w.waiting[0], w.runtime, clock);
  }

  lemma RetryCanComplete(w: World, clock: Clock)
    requires WorldOk(w) && NotFailedYet(w) && HasRecoverableError(w.data.run)
    ensures ExecutionBegun(w, 0, Obliging(), Answered, clock).world.data.run.status == Completed
  {
    RequestCanSucceed(w);
    SuccessCompletes(w.data, w.data, ExecutionRequest(w.data), w.runtime, clock);
  }

  lemma OneStep(w: World, step: Step, clock: Clock)
    ensures After(w, [Timed(step, clock)]) == Next(w, step, clock).world
  {
    assert [Timed(step, clock)][..0] == [];
  }

  lemma ResumeAlone(w: World, clock: Clock)
    ensures After(w, [Timed(Resume(0, Obliging(), Answered), clock)])
            == ExecutionResumed(w, 0, Obliging(), Answered, clock).world
  {
    OneStep(w, Resume(0, Obliging(), Answered), clock);
  }

  lemma ExecuteAlone(w: World, clock: Clock)
    ensures After(w, [Timed(Execute(0, Obliging(), Answered), clock)])
            == ExecutionBegun(w, 0, Obliging(), Answered, clock).world
  {
    OneStep(w, Execute(0, Obliging(), Answered), clock);
  }

  function Standstill(): Clock {
    (n: nat) => 0
  }

  lemma WaitingSuffices(w: World)
    requires ExecutionResumed(w, 0, Obliging(), Answered, Standstill()).world.data.run.status == Completed
    ensures CanComplete(w)
  {
    ResumeAlone(w, Standstill());
  }

  lemma RetrySuffices(w: World)
    requires ExecutionBegun(w, 0, Obliging(), Answered, Standstill()).world.data.run.status == Completed
    ensures CanComplete(w)
  {
    ExecuteAlone(w, Standstill());
  }

  lemma CallToComeSuffices(w: World)
    requires WorldOk(w) && Started(w.data) && CallToCome(w) && NotFailedYet(w)
    ensures CanComplete(w)
  {
    if w.waiting != [] {
      WaitingCanComplete(w, Standstill());
      WaitingSuffices(w);
    } else {
      RetryCanComplete(w, Standstill());
      RetrySuffices(w);
    }
  }

  /** A started run can still complete exactly when a call is to come and the runtime has not
      recorded a failure. */
  lemma CanCompleteIff(id: nat, owner: nat, steps: seq<Timed>)
    requires Started(After(Start(id, owner), steps).data)
    ensures var w := After(Start(id, owner), steps);
      CanComplete(w) <==> CallToCome(w) && NotFailedYet(w)
  {
    ReachableOk(id, owner, steps);
    OkCanCompleteIff(After(Start(id, owner), steps));
  }

  lemma OkCanCompleteIff(w: World)
    requires WorldOk(w) && Started(w.data)
    ensures CanComplete(w) <==> CallToCome(w) && NotFailedYet(w)
  {
    if more :| After(w, more).data.run.status == Completed {
      CompletionNeeds(w, more);
    }
    if CallToCome(w) && NotFailedYet(w) {
      CallToComeSuffices(w);
    }
  }

  /** A first submission reported "queued" or "running" leaves a run that stays as it is until it is
      cancelled, and never completes. */
  lemma UnfinishedReportStrands(id: nat, owner: nat, steps: seq<Timed>, execution: nat, outside: Outside,
                                status: ExecutionStatus, clock: Clock, more: seq<Timed>)
    requires var w := After(Start(id, owner), steps);
      w.waiting != [] && w.data.run.status == Queued
    requires status in {RunQueued, Running}
    ensures var w := After(Start(id, owner), steps);
      var reported := ExecutionResumed(w, execution, outside, Reported(status), clock).world;
      Stranded(reported) && Stranded(After(reported, more))
  {
    ReachableOk(id, owner, steps);
    ReportStrands(After(Start(id, owner), steps), execution, outside, status, clock, more);
  }

  lemma SentReportKeepsProspect(before: Data, d: Data, request: Request, runtime: Runtime, execution: nat,
                                outside: Outside, status: ExecutionStatus, clock: Clock)
    requires d.run.status == Executing && status in {RunQueued, Running}
    requires Answer(runtime, request, execution, outside).Ok?
    ensures var data := Sent(before, d, request, runtime, execution, outside, Reported(status), clock).0.data;
      if status == RunQueued then data.run == before.run else SameProspect(d, data)
  {
  }

  lemma ReportEndsCalls(w: World, execution: nat, outside: Outside, status: ExecutionStatus, clock: Clock)
    requires WorldOk(w) && w.waiting != [] && w.data.run.status == Queued && status in {RunQueued, Running}
    ensures Stranded(ExecutionResumed(w, execution, outside, Reported(status), clock).world)
  {
    SubmissionRecords(w.runtime, w.data.id, w.waiting[0], execution, outside);
    SentReportKeepsProspect(w.data, Moved(w.data, Executing, clock).value, w.waiting[0], w.runtime, execution, outside,
                            status, clock);
  }

  lemma ResumingOk(w: World, execution: nat, outside: Outside, delivery: Delivery, clock: Clock)
    requires WorldOk(w)
    ensures WorldOk(ExecutionResumed(w, execution, outside, delivery, clock).world)
  {
    WaitingKey(w);
    ResumedTells(w, execution, outside, delivery, clock);
    ResumedKeeps(w, execution, outside, delivery, clock);
    ResumedKeepsProtocol(w, execution, outside, delivery, clock);
  }

  lemma ReportStrands(w: World, execution: nat, outside: Outside, status: ExecutionStatus, clock: Clock,
                      more: seq<Timed>)
    requires WorldOk(w) && w.waiting != [] && w.data.run.status == Queued && status in {RunQueued, Running}
    ensures var reported := ExecutionResumed(w, execution, outside, Reported(status), clock).world;
      Stranded(reported) && Stranded(After(reported, more))
  {
    ReportEndsCalls(w, execution, outside, status, clock);
    ResumingOk(w, execution, outside, Reported(status), clock);
    StrandedStays(ExecutionResumed(w, execution, outside, Reported(status), clock).world, more);
  }

  /** Such a world can be reached: a run waits for its second lock and hears "queued". */
  lemma QueuedReportHappens()
    ensures exists steps, clock ::
              var w := After(Start(1, 2), steps);
              && w.waiting != [] && w.data.run.status == Queued
              && ExecutionResumed(w, 7, WORLD_OUTSIDE, Reported(RunQueued), clock).error
                 == Some(InvalidWorkflowTransition)
  {
    var steps := Waiting();
    FirstReportFailsIff(1, 2, steps, 7, WORLD_OUTSIDE, RunQueued, Standing());
  }
}
