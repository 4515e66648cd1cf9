/** What the planning steps make of a run, and what its owner can still change about a plan. */
module LearnPlans {
  import opened Wrappers
  import opened WorkflowStates
  import opened AuditTrail
  import opened Payloads
  import opened LearnRun
  import opened LearnLog
  import opened LearnRows
  import opened LearnTheorems
  import opened LearnOutcomes

  /** The call was refused: nothing but the log's clock has moved. */
  predicate Refuses(d: Data, outcome: Outcome, error: Error) {
    outcome.error == Some(error) && Unchanged(d, outcome.data)
  }

  /** The call committed: the given document and run, and the same plan of actions. */
  predicate Commits(d: Data, outcome: Outcome, document: Parsing, run: Run) {
    outcome == Outcome(d.(document := document, run := run, log := outcome.data.log), None)
  }

  predicate EarlyOutcome(d: Data, outcome: Outcome, step: Step)
    requires Plans(step)
  {
    var run := outcome.data.run;
    match step
    case StartAnalysis =>
      if d.run.status == Draft then
        Commits(d, outcome, BeingParsed, d.run.(status := Analyzing, startedAt := run.startedAt)) && run.startedAt.Some?
      else Refuses(d, outcome, LearnWorkflowInvalidState)
    case FinishParsing =>
      if d.document == BeingParsed then Commits(d, outcome, Parsed, d.run) else Refuses(d, outcome, NothingToResume)
    case FailParsing(code) =>
      if d.document == BeingParsed && d.run.status == Analyzing then
        && Commits(d, outcome, ParseFailed, d.run.(status := Failed, completedAt := run.completedAt,
                                                   errorCode := Some(Permanent(code))))
        && run.completedAt.Some?
      else Refuses(d, outcome, NothingToResume)
    case ClaimSummary =>
      if d.run.status == Analyzing && d.run.plan == NoPlan && d.document == Parsed then
        Commits(d, outcome, Parsed, d.run.(plan := Summarizing))
      else Refuses(d, outcome, LearnWorkflowInvalidState)
    case FailSummary(code) =>
      if d.run.plan == Summarizing && d.run.status == Analyzing then
        && Commits(d, outcome, d.document, d.run.(status := Failed, completedAt := run.completedAt,
                                                  errorCode := Some(Permanent(code))))
        && run.completedAt.Some?
      else Refuses(d, outcome, NothingToResume)
  }

  lemma OkEarlyOutcome(w: World, step: Step, clock: Clock)
    requires RowsOk(w.data) && Plans(step)
    ensures var effect := Next(w, step, clock);
      && EarlyOutcome(w.data, Outcome(effect.world.data, effect.error), step)
      && effect.world == w.(data := effect.world.data)
  {
    match step
    case StartAnalysis =>
    case FinishParsing =>
    case FailParsing(code) =>
    case ClaimSummary =>
    case FailSummary(code) =>
  }

  /** What each step of the analysis makes of a run, and when it is refused. */
  lemma AnalysisMade(id: nat, owner: nat, steps: seq<Timed>, step: Step, clock: Clock)
    requires Plans(step)
    ensures var w := After(Start(id, owner), steps);
      var effect := Next(w, step, clock);
      && EarlyOutcome(w.data, Outcome(effect.world.data, effect.error), step)
      && effect.world == w.(data := effect.world.data)
  {
    ReachableOk(id, owner, steps);
    OkEarlyOutcome(After(Start(id, owner), steps), step, clock);
  }

  // ----- Proposing

  /** The run waits for decisions on the proposals: one open action and one pending approval for each. */
  predicate AwaitsDecisions(d: Data, later: Data, text: string, proposals: seq<Proposal>) {
    && later == d.(run := d.run.(status := AwaitingApproval, plan := Summarized(text)), actions := later.actions,
                   approvals := later.approvals, log := later.log)
    && |later.actions| == |later.approvals| == |proposals|
    && forall i :: 0 <= i < |proposals| ==>
         && later.actions[i] == Action(i, proposals[i].operation, proposals[i].payload, Proposed)
         && later.approvals[i] == Approval(i, i, Pending, proposals[i].payload, None, None, None)
  }

  predicate PlanOutcome(d: Data, outcome: Outcome, text: string, proposals: seq<Proposal>) {
    if d.run.status == Analyzing && proposals != [] then
      outcome.error == None && AwaitsDecisions(d, outcome.data, text, proposals)
    else Refuses(d, outcome, if d.run.status == Analyzing then ApprovalRequired else InvalidWorkflowTransition)
  }

  lemma OkPlanOutcome(d: Data, text: string, proposals: seq<Proposal>, clock: Clock)
    requires RowsOk(d)
    ensures PlanOutcome(d, Planned(d, text, proposals, clock), text, proposals)
  {
    var summarized := Noted(d.(run := d.run.(plan := Summarized(text))), "SUMMARY_GENERATED", clock);
    var ready := Moved(summarized, PlanReady, clock);
    if ready.Ok? {
      ActionsAdded(ready.value, proposals, clock);
      RequestOutcome(d, WithActions(ready.value, proposals, clock), text, proposals, clock);
    }
  }

  lemma RequestedAwaits(before: Data, made: Data, text: string, proposals: seq<Proposal>, clock: Clock)
    requires before.run.status == Analyzing && before.run.completedAt == None && proposals != []
    requires made == before.(run := before.run.(status := PlanReady, plan := Summarized(text)),
                             actions := NewActions(proposals), approvals := NewRequests(NewActions(proposals)),
                             log := made.log)
    ensures var moved := Moved(made, AwaitingApproval, clock);
      moved.Ok? && AwaitsDecisions(before, moved.value, text, proposals)
  {
    RequestsPair(made.actions);
    SameActionIds(made.actions, made.approvals);
    assert AllApprovals(made.approvals, Pending);
  }

  lemma RequestOutcome(before: Data, d: Data, text: string, proposals: seq<Proposal>, clock: Clock)
    requires before.approvals == [] && before.run.status == Analyzing
    requires d == before.(run := before.run.(status := PlanReady, plan := Summarized(text), completedAt := None),
                          actions := NewActions(proposals), log := d.log)
    requires before.run.completedAt == None
    ensures PlanOutcome(before, Requested(before, d, clock), text, proposals)
  {
    if proposals == [] {
      assert d.actions == [];
    } else {
      RequestsAdded(d, |d.actions|, clock);
      assert d.actions[..|d.actions|] == d.actions;
      RequestedAwaits(before, WithRequests(d, |d.actions|, clock), text, proposals, clock);
    }
  }

  predicate ProposingOutcome(d: Data, outcome: Outcome, step: Step)
    requires Proposes(step)
  {
    match step
    case FinishSummary(text, destination) =>
      if d.run.plan != Summarizing then Refuses(d, outcome, NothingToResume)
      else PlanOutcome(d, outcome, text, [Proposal(CreateNotionStudyPage, Payload(StudyPage(text), destination))])
    case FinishOtherPlan(text, proposals) => PlanOutcome(d, outcome, text, proposals)
  }

  /** What a finished plan makes of a run: its proposals, open and to be decided, all in one commit, or
      nothing at all. */
  lemma PlanMade(id: nat, owner: nat, steps: seq<Timed>, step: Step, clock: Clock)
    requires Proposes(step)
    ensures var w := After(Start(id, owner), steps);
      var effect := Next(w, step, clock);
      && ProposingOutcome(w.data, Outcome(effect.world.data, effect.error), step)
      && effect.world == w.(data := effect.world.data)
  {
    ReachableOk(id, owner, steps);
    OkPlanMade(After(Start(id, owner), steps), step, clock);
  }

  lemma OkPlanMade(w: World, step: Step, clock: Clock)
    requires RowsOk(w.data) && Proposes(step)
    ensures var effect := Next(w, step, clock);
      && ProposingOutcome(w.data, Outcome(effect.world.data, effect.error), step)
      && effect.world == w.(data := effect.world.data)
  {
    match step
    case FinishSummary(text, destination) =>
      OkPlanOutcome(w.data, text, [Proposal(CreateNotionStudyPage, Page(text, destination))], clock);
    case FinishOtherPlan(text, proposals) => OkPlanOutcome(w.data, text, proposals, clock);
  }

  // ----- Rewriting

  /** The proposed page is replaced, and a pending approval shows the new one. */
  predicate Rewrites(d: Data, later: Data, page: Payload, plan: Plan, action: ActionStatus, original: Payload)
  {
    && |d.actions| == 1 && |d.approvals| == 1
    && later == d.(run := d.run.(plan := plan), log := later.log,
                   actions := [Action(0, d.actions[0].operation, page, action)],
                   approvals := [d.approvals[0].(original := original)])
  }

  predicate RewritingOutcome(d: Data, outcome: Outcome, step: Step)
    requires step.Edit? || step.UpdateDestination?
  {
    match step
    case Edit(text, destination, expected) =>
      var page := Payload(StudyPage(text), destination);
      if d.run.status != AwaitingApproval || |d.actions| != 1 then Refuses(d, outcome, LearnWorkflowInvalidState)
      else if d.actions[0].payload != expected then Refuses(d, outcome, ApprovalPayloadMismatch)
      else outcome.error == None && Rewrites(d, outcome.data, page, Summarized(text), ActionStatus.Edited, page)
    case UpdateDestination(destination) =>
      if d.run.status !in {AwaitingApproval, Approved} || |d.actions| != 1 || |d.approvals| != 1
         || !d.run.plan.Summarized?
      then Refuses(d, outcome, LearnWorkflowInvalidState)
      else
        var page := Payload(StudyPage(d.run.plan.text), destination);
        outcome.error == None
        && if d.run.status == AwaitingApproval
           then Rewrites(d, outcome.data, page, d.run.plan, ActionStatus.Edited, page)
           else Rewrites(d, outcome.data, page, d.run.plan, d.actions[0].status, d.approvals[0].original)
  }

  lemma OkRewritingOutcome(w: World, step: Step, clock: Clock)
    requires RowsOk(w.data) && (step.Edit? || step.UpdateDestination?)
    ensures var effect := Next(w, step, clock);
      && RewritingOutcome(w.data, Outcome(effect.world.data, effect.error), step)
      && effect.world == w.(data := effect.world.data)
  {
    if |w.data.actions| == 1 {
      assert w.data.approvals[0] in w.data.approvals;
    }
  }

  /** What an edit or a new destination makes of a plan, and exactly when it is refused: the owner must
      have seen the current page, an edited page is pending again on its approval, and a granted
      approval keeps what was granted. */
  lemma RewritingMade(id: nat, owner: nat, steps: seq<Timed>, step: Step, clock: Clock)
    requires step.Edit? || step.UpdateDestination?
    ensures var w := After(Start(id, owner), steps);
      var effect := Next(w, step, clock);
      && RewritingOutcome(w.data, Outcome(effect.world.data, effect.error), step)
      && effect.world == w.(data := effect.world.data)
  {
    ReachableOk(id, owner, steps);
    OkRewritingOutcome(After(Start(id, owner), steps), step, clock);
  }
}
