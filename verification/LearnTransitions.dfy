/** Which step brings a run into which state, and what the run knows of its execution. */
module LearnTransitions {
  import opened Wrappers
  import opened WorkflowStates
  import opened AuditTrail
  import opened LocalRuntime
  import opened LearnRun
  import opened LearnLog
  import opened LearnProtocol
  import opened LearnTheorems
  import opened LearnOutcomes
  import opened LearnPlans

  // ----- Causes

  /** The runtime reported one of these while an execution was sent. */
  predicate Heard(w: World, step: Step, statuses: set<ExecutionStatus>) {
    Sends(w, step) && step.delivery.Reported? && step.delivery.status in statuses
  }

  /** The steps that can bring a run into a state it is not in. */
  predicate Brings(w: World, step: Step, status: Status) {
    match status
    case Analyzing => step.StartAnalysis? && w.data.run.status == Draft
    case AwaitingApproval => Proposes(step) && w.data.run.status == Analyzing
    case Approved => step.Resolve? && step.approve && w.data.run.status == AwaitingApproval
    case Rejected => step.Resolve? && !step.approve && w.data.run.status == AwaitingApproval
    case Queued => step.Execute? && w.data.run.status == Approved
    case Executing => step.Resume? && Sends(w, step)
    case Completed => Sends(w, step) && step.delivery.Answered?
    case Failed =>
      || (w.data.run.status == Analyzing && (step.FailParsing? || step.FailSummary?))
      || (Sends(w, step) && step.delivery.Answered?) || Heard(w, step, {Succeeded, Partial, RunFailed})
    case Cancelled => step.Cancel? || Heard(w, step, {RunCancelled})
    case _ => false
  }

  predicate BroughtBy(w: World, step: Step, later: Data) {
    later.run.status == w.data.run.status || Brings(w, step, later.run.status)
  }

  /** The states that a submission can lead to. */
  predicate SendingLeads(status: Status, before: Status, delivery: Delivery) {
    match status
    case Executing => true
    case Completed => delivery.Answered?
    case Failed => delivery.Answered? || (delivery.Reported? && delivery.status in {Succeeded, Partial, RunFailed})
    case Cancelled => delivery.Reported? && delivery.status == RunCancelled
    case _ => status == before
  }

  lemma OutcomeLeads(d: Data, outcome: Outcome, runtime: Runtime, after: Runtime, delivery: Delivery)
    requires SendingOutcome(d, outcome, runtime, after, delivery) && d.run.status in {Queued, Executing}
    ensures SendingLeads(outcome.data.run.status, d.run.status, delivery)
  {
  }

  lemma SendingBrings(w: World, step: Step, clock: Clock)
    requires WorldOk(w) && Sends(w, step)
    ensures BroughtBy(w, step, Next(w, step, clock).world.data)
  {
    var effect := Next(w, step, clock);
    OkExecutionOutcome(w, step, clock);
    assert w.data.run.status in {Queued, Executing} by {
      WaitingKey(w);
    }
    OutcomeLeads(w.data, Outcome(effect.world.data, effect.error), w.runtime, effect.world.runtime, step.delivery);
  }

  lemma ExecutingBrings(w: World, step: Step, clock: Clock)
    requires WorldOk(w) && (step.Execute? || step.Resume?)
    ensures BroughtBy(w, step, Next(w, step, clock).world.data)
  {
    if Sends(w, step) {
      SendingBrings(w, step, clock);
    } else if step.Execute? {
      OkQueueOutcome(w, step.id, step.outside, step.delivery, clock);
    } else if w.data.run.status != Queued {
      OkLateOutcome(w, step.id, step.outside, step.delivery, clock);
    }
  }

  lemma PlanningBrings(w: World, step: Step, clock: Clock)
    requires WorldOk(w) && (Plans(step) || Proposes(step))
    ensures BroughtBy(w, step, Next(w, step, clock).world.data)
  {
    if Plans(step) {
      OkEarlyOutcome(w, step, clock);
    } else {
      OkPlanMade(w, step, clock);
    }
  }

  lemma DecidingBrings(w: World, step: Step, clock: Clock)
    requires WorldOk(w) && Decides(step)
    ensures BroughtBy(w, step, Next(w, step, clock).world.data)
  {
    if step.Resolve? {
      OkDecisionMade(w, step.approvalId, step.payload, step.approve, step.now, clock);
    } else {
      OkRewritingOutcome(w, step, clock);
    }
  }

  lemma OtherStepsBring(w: World, step: Step, clock: Clock)
    requires WorldOk(w) && !step.Execute? && !step.Resume?
    ensures BroughtBy(w, step, Next(w, step, clock).world.data)
  {
    if Plans(step) || Proposes(step) {
      PlanningBrings(w, step, clock);
    } else if Decides(step) {
      DecidingBrings(w, step, clock);
    } else if step.Cancel? {
      OkCancelMade(w, step.reply, clock);
    }
  }

  /** Every state has its cause: a run is approved or rejected only by a decision, queued and executed
      only by an execution, completed only by an answer of the runtime, and cancelled only by a cancel
      or by the runtime's report that it was. */
  lemma StatesHaveCauses(id: nat, owner: nat, steps: seq<Timed>, step: Step, clock: Clock)
    ensures var w := After(Start(id, owner), steps);
      BroughtBy(w, step, Next(w, step, clock).world.data)
  {
    ReachableOk(id, owner, steps);
    var w := After(Start(id, owner), steps);
    if step.Execute? || step.Resume? {
      ExecutingBrings(w, step, clock);
    } else {
      OtherStepsBring(w, step, clock);
    }
  }

  // ----- The identifier of the execution

  /** A run that executes or has completed knows its execution, unless its submission is uncertain;
      what it knows is the runtime's own identifier. */
  predicate Identified(w: World) {
    var run := w.data.run;
    && (run.status == Executing && !HasRecoverableError(run) ==> run.executionId.Some?)
    && (run.status == Completed ==> run.executionId.Some?)
    && (run.executionId.Some? ==> KnownTo(w.runtime, w.data.id, run.executionId.value))
  }

  predicate KnownTo(runtime: Runtime, run: nat, execution: nat) {
    LearnKey(run, 0) in runtime.executions && runtime.executions[LearnKey(run, 0)].snapshot.id == execution
  }

  /** The step leaves the run's part in its execution as it was. */
  predicate SamePart(w: World, later: World) {
    && later.data.id == w.data.id && later.runtime == w.runtime
    && later.data.run.executionId == w.data.run.executionId
    && (later.data.run.status in {Executing, Completed} ==> later.data.run == w.data.run)
  }

  lemma EarlySamePart(w: World, step: Step, clock: Clock)
    requires WorldOk(w) && (Plans(step) || Proposes(step))
    ensures SamePart(w, Next(w, step, clock).world)
  {
    if Plans(step) {
      OkEarlyOutcome(w, step, clock);
    } else {
      OkPlanMade(w, step, clock);
    }
  }

  lemma DecidingSamePart(w: World, step: Step, clock: Clock)
    requires WorldOk(w) && (Decides(step) || step.Cancel?)
    ensures SamePart(w, Next(w, step, clock).world)
  {
    if step.Resolve? {
      OkDecisionMade(w, step.approvalId, step.payload, step.approve, step.now, clock);
    } else if step.Cancel? {
      OkCancelMade(w, step.reply, clock);
    } else {
      OkRewritingOutcome(w, step, clock);
    }
  }

  lemma OutcomeIdentifies(d: Data, outcome: Outcome, runtime: Runtime, after: Runtime, delivery: Delivery)
    requires SendingOutcome(d, outcome, runtime, after, delivery) && outcome.data.id == d.id
    requires d.run.status == Queued || HasRecoverableError(d.run)
    requires d.run.executionId.Some? ==> KnownTo(after, d.id, d.run.executionId.value)
    ensures var run := outcome.data.run;
      && (run.status in {Executing, Completed} ==> run.executionId.Some? || HasRecoverableError(run))
      && (run.status == Completed ==> run.executionId.Some?)
      && (run.executionId.Some? ==> KnownTo(after, d.id, run.executionId.value))
  {
  }

  lemma SendingIdentifies(w: World, step: Step, clock: Clock)
    requires WorldOk(w) && Identified(w) && Sends(w, step)
    ensures Identified(Next(w, step, clock).world)
  {
    var effect := Next(w, step, clock);
    OkExecutionOutcome(w, step, clock);
    NextSameRun(w, step, clock);
    RecordStays(w, step, clock);
    OutcomeIdentifies(w.data, Outcome(effect.world.data, effect.error), w.runtime, effect.world.runtime,
                      step.delivery);
  }

  lemma RecordStays(w: World, step: Step, clock: Clock)
    requires WorldOk(w) && Sends(w, step)
    ensures var key, after := LearnKey(w.data.id, 0), Next(w, step, clock).world.runtime;
      key in w.runtime.executions ==> key in after.executions && after.executions[key] == w.runtime.executions[key]
  {
  }

  lemma ExecutingIdentifies(w: World, step: Step, clock: Clock)
    requires WorldOk(w) && Identified(w) && (step.Execute? || step.Resume?)
    ensures Identified(Next(w, step, clock).world)
  {
    if Sends(w, step) {
      SendingIdentifies(w, step, clock);
    } else if step.Execute? {
      OkQueueOutcome(w, step.id, step.outside, step.delivery, clock);
    } else if w.data.run.status != Queued {
      OkLateOutcome(w, step.id, step.outside, step.delivery, clock);
    }
  }

  lemma StepIdentifies(w: World, step: Step, clock: Clock)
    requires WorldOk(w) && Identified(w)
    ensures Identified(Next(w, step, clock).world)
  {
    if step.Execute? || step.Resume? {
      ExecutingIdentifies(w, step, clock);
    } else if Plans(step) || Proposes(step) {
      EarlySamePart(w, step, clock);
    } else if Decides(step) || step.Cancel? {
      DecidingSamePart(w, step, clock);
    }
  }

  lemma {:induction false} ReachableIdentified(id: nat, owner: nat, steps: seq<Timed>)
    ensures WorldOk(After(Start(id, owner), steps)) && Identified(After(Start(id, owner), steps))
  {
    ReachableOk(id, owner, steps);
    if steps != [] {
      var last := steps[|steps| - 1];
      ReachableIdentified(id, owner, steps[..|steps| - 1]);
      StepIdentifies(After(Start(id, owner), steps[..|steps| - 1]), last.step, last.clock);
    }
  }

  /** In every reachable world a run that executes, and whose submission is not uncertain, knows the
      identifier that the runtime gave its execution; so does every completed run. */
  lemma ExecutionsAreKnown(id: nat, owner: nat, steps: seq<Timed>)
    ensures Identified(After(Start(id, owner), steps))
  {
    ReachableIdentified(id, owner, steps);
  }

  /** Such a run is cancelled if and only if the runtime says that the execution was. */
  lemma CancelNeedsTheRuntimesWord(id: nat, owner: nat, steps: seq<Timed>, reply: Option<ExecutionStatus>,
                                   clock: Clock)
    requires var run := After(Start(id, owner), steps).data.run;
      run.status == Executing && !HasRecoverableError(run)
    ensures Next(After(Start(id, owner), steps), Cancel(reply), clock).world.data.run.status == Cancelled
            <==> reply == Some(RunCancelled)
  {
    ReachableIdentified(id, owner, steps);
    OkCancelMade(After(Start(id, owner), steps), reply, clock);
  }
}
