/** What happens to a task proposal: who moves it, what a capture adds, and what its task is made of. */
module ProjectOutcomes {
  import opened Wrappers
  import opened LocalRuntime
  import opened ProjectTables
  import opened ProjectSteps

  // ----- The state of a proposal

  /** The state of the run of an action, while it is there. */
  function StateOf(t: Tables, action: nat): Option<RunState> {
    if action in t.actions && t.actions[action].run in t.runs
    then Some(t.runs[t.actions[action].run].state) else None
  }

  /** No two actions share a run. */
  predicate OwnRuns(t: Tables) {
    forall a, b :: a in t.actions && b in t.actions && t.actions[a].run == t.actions[b].run ==> a == b
  }

  /** What a step can do to the state of a proposal: an owner accepts it, an execution claims it, a
      task finishes it; apart from that it can be stopped, be deleted or be new. */
  predicate MovesOn(step: Step, action: nat, before: Option<RunState>, after: Option<RunState>) {
    || after == before
    || after in {None, Some(Stopped)}
    || ((step.Capture? || step.OtherRun?) && before == None && after == Some(Deciding))
    || (step == Accept(action) && before == Some(Deciding) && after == Some(Released))
    || (step == Take(action) && before == Some(Released) && after == Some(Claimed))
    || (step == Make(action, true) && before == Some(Claimed) && after == Some(Finished))
  }

  lemma ProposalMoves(s: Store, project: nat, source: nat, b: nat)
    requires Numbered(s) && ForeignKeys(s.tables)
    ensures var before, after := StateOf(s.tables, b), StateOf(WithProposal(s, project, source).tables, b);
      after == before || (before == None && after == Some(Deciding))
  {
  }

  /** The tables take new proposals: the foreign keys are valid and identifiers in use are below the next. */
  predicate TakesProposals(s: Store, project: nat) {
    ForeignKeys(s.tables) && Numbered(s) && project in s.tables.projects
  }

  lemma ProposalTaken(s: Store, project: nat, source: nat)
    requires TakesProposals(s, project)
    ensures TakesProposals(WithProposal(s, project, source), project)
  {
    ProposalLinks(s, project, source);
    ProposalNumbers(s, project, source);
  }

  lemma {:induction false} ProposalsTaken(s: Store, project: nat, source: nat, count: nat)
    requires TakesProposals(s, project)
    ensures TakesProposals(WithProposals(s, project, source, count), project)
    decreases count
  {
    if count != 0 {
      ProposalsTaken(s, project, source, count - 1);
      ProposalTaken(WithProposals(s, project, source, count - 1), project, source);
    }
  }

  lemma {:induction false} ProposalsMove(s: Store, project: nat, source: nat, count: nat, b: nat)
    requires TakesProposals(s, project)
    ensures var before, after := StateOf(s.tables, b), StateOf(WithProposals(s, project, source, count).tables, b);
      after == before || (before == None && after == Some(Deciding))
    decreases count
  {
    if count != 0 {
      ProposalsMove(s, project, source, count - 1, b);
      ProposalsTaken(s, project, source, count - 1);
      ProposalMoves(WithProposals(s, project, source, count - 1), project, source, b);
    }
  }

  lemma CaptureMoves(s: Store, project: nat, count: nat, b: nat)
    requires StoreOk(s)
    ensures var before, after := StateOf(s.tables, b), StateOf(Captured(s, project, count).tables, b);
      after == before || (before == None && after == Some(Deciding))
  {
    if project in s.tables.projects {
      var sourced := WithSource(s, project);
      ProposalsMove(sourced, project, s.next, count, b);
      assert StateOf(sourced.tables, b) == StateOf(s.tables, b);
    }
  }

  lemma MakingMoves(s: Store, action: nat, succeeded: bool, b: nat)
    requires StoreOk(s) && OwnRuns(s.tables)
    ensures MovesOn(Make(action, succeeded), b, StateOf(s.tables, b), StateOf(Made(s, action, succeeded).tables, b))
  {
  }

  lemma DeletionMoves(s: Store, project: nat, b: nat)
    requires StoreOk(s)
    ensures StateOf(Deleted(s, project).tables, b) in {None, StateOf(s.tables, b)}
  {
    OnlyOwnRowsGo(s.tables, project);
  }

  lemma StepMoves(s: Store, step: Step, b: nat)
    requires StoreOk(s) && OwnRuns(s.tables)
    ensures MovesOn(step, b, StateOf(s.tables, b), StateOf(Next(s, step).tables, b))
  {
    match step
    case Capture(project, proposals) => CaptureMoves(s, project, proposals, b);
    case Make(action, succeeded) => MakingMoves(s, action, succeeded, b);
    case DeleteProject(project) => DeletionMoves(s, project, b);
    case _ =>
  }

  // ----- Runs are not shared

  lemma ProposalOwnsRun(s: Store, project: nat, source: nat)
    requires Numbered(s) && ForeignKeys(s.tables) && OwnRuns(s.tables)
    ensures OwnRuns(WithProposal(s, project, source).tables)
  {
  }

  lemma {:induction false} ProposalsOwnRuns(s: Store, project: nat, source: nat, count: nat)
    requires TakesProposals(s, project) && OwnRuns(s.tables)
    ensures OwnRuns(WithProposals(s, project, source, count).tables)
    decreases count
  {
    if count != 0 {
      ProposalsOwnRuns(s, project, source, count - 1);
      ProposalsTaken(s, project, source, count - 1);
      ProposalOwnsRun(WithProposals(s, project, source, count - 1), project, source);
    }
  }

  lemma StepOwnsRuns(s: Store, step: Step)
    requires StoreOk(s) && OwnRuns(s.tables)
    ensures OwnRuns(Next(s, step).tables)
  {
    match step
    case Capture(project, proposals) =>
      if project in s.tables.projects {
        ProposalsOwnRuns(WithSource(s, project), project, s.next, proposals);
      }
    case DeleteProject(project) => OnlyOwnRowsGo(s.tables, project);
    case _ =>
  }

  // ----- Consent

  /** The steps taken contain what the state of the proposal asks for. */
  predicate Explained(steps: seq<Step>, action: nat, state: Option<RunState>) {
    && (state in {Some(Released), Some(Claimed), Some(Finished)} ==> Accept(action) in steps)
    && (state in {Some(Claimed), Some(Finished)} ==> Take(action) in steps)
  }

  lemma {:induction false} RunsStayOwned(steps: seq<Step>)
    ensures StoreOk(After(steps)) && OwnRuns(After(steps).tables)
  {
    ReachableOk(steps);
    if steps != [] {
      RunsStayOwned(steps[..|steps| - 1]);
      StepOwnsRuns(After(steps[..|steps| - 1]), steps[|steps| - 1]);
    }
  }

  lemma {:induction false} StatesAreExplained(steps: seq<Step>, action: nat)
    ensures Explained(steps, action, StateOf(After(steps).tables, action))
  {
    if steps != [] {
      var front, last := steps[..|steps| - 1], steps[|steps| - 1];
      assert steps == front + [last];
      RunsStayOwned(front);
      StatesAreExplained(front, action);
      StepMoves(After(front), last, action);
    }
  }

  lemma OnlyMakingMakes(s: Store, step: Step, action: nat)
    requires action in Next(s, step).made && action !in s.made
    ensures step == Make(action, true) && StateOf(s.tables, action) == Some(Claimed)
  {
    if step.Capture? {
      CapturesMakeNothing(s, step.project, step.proposals);
    }
  }

  lemma CapturesMakeNothing(s: Store, project: nat, count: nat)
    ensures Captured(s, project, count).made == s.made
  {
    if project in s.tables.projects {
      ProposalsMakeNothing(WithSource(s, project), project, s.next, count);
    }
  }

  lemma {:induction false} ProposalsMakeNothing(s: Store, project: nat, source: nat, count: nat)
    ensures WithProposals(s, project, source, count).made == s.made
    decreases count
  {
    if count != 0 {
      ProposalsMakeNothing(s, project, source, count - 1);
    }
  }

  /** No task without consent: a proposal that ever became a task was accepted by its owner, claimed by
      an execution and carried out, whatever else happened before, in between and since. */
  lemma {:induction false} NoTaskWithoutConsent(steps: seq<Step>, action: nat)
    requires action in After(steps).made
    ensures Accept(action) in steps && Take(action) in steps && Make(action, true) in steps
  {
    var front, last := steps[..|steps| - 1], steps[|steps| - 1];
    assert steps == front + [last];
    if action in After(front).made {
      NoTaskWithoutConsent(front, action);
    } else {
      OnlyMakingMakes(After(front), last, action);
      StatesAreExplained(front, action);
    }
  }

  /** And in that order, the acceptance and the claim before the task: no task exists for a proposal
      whose run has not finished. */
  lemma TasksComeLast(steps: seq<Step>, k: nat)
    requires k in After(steps).tables.tasks && After(steps).tables.tasks[k].proposal.Some?
    ensures StateOf(After(steps).tables, After(steps).tables.tasks[k].proposal.value) == Some(Finished)
    ensures After(steps).tables.tasks[k].proposal.value in After(steps).made
  {
    ReachableOk(steps);
  }

  /** Every step moves a proposal along its life and no other way. */
  lemma ProposalsMoveOn(steps: seq<Step>, step: Step, action: nat)
    ensures MovesOn(step, action, StateOf(After(steps).tables, action),
                    StateOf(Next(After(steps), step).tables, action))
  {
    RunsStayOwned(steps);
    StepMoves(After(steps), step, action);
  }

  /** And it does move: accepting releases a proposal that waits for a decision, and an execution claims
      every proposal that is released. */
  lemma ProposalsProgress(steps: seq<Step>, action: nat)
    requires action in After(steps).tables.actions && After(steps).tables.actions[action].origin.Some?
    ensures var s := After(steps);
      && (StateOf(s.tables, action) == Some(Deciding) ==>
            StateOf(Next(s, Accept(action)).tables, action) == Some(Released))
      && (StateOf(s.tables, action) == Some(Released) ==>
            StateOf(Next(s, Take(action)).tables, action) == Some(Claimed))
  {
    ReachableOk(steps);
    if StateOf(After(steps).tables, action) == Some(Released) {
      ReleasedHasNoTask(After(steps), action);
    }
  }

  lemma ReleasedHasNoTask(s: Store, action: nat)
    requires StoreOk(s) && StateOf(s.tables, action) == Some(Released)
    ensures !HasTask(s.tables, action)
  {
  }

  // ----- What the steps add

  /** The rows of a table after a step: the old ones as they were, and the given number of new ones. */
  predicate Adds<R(==)>(before: map<nat, R>, after: map<nat, R>, count: nat) {
    && (forall k :: k in before ==> k in after && after[k] == before[k])
    && |after| == |before| + count
  }

  lemma OneRowMore<R>(before: map<nat, R>, k: nat, row: R)
    requires k !in before
    ensures Adds(before, before[k := row], 1)
  {
    assert before[k := row].Keys == before.Keys + {k};
  }

  /** The new runs wait for a decision, and each new action names the source and the project. */
  predicate ProposesRuns(t: Tables, u: Tables, project: nat, source: nat) {
    && (forall k :: k in u.runs && k !in t.runs ==> u.runs[k] == RunRow(Some(project), Deciding))
    && (forall k :: k in u.actions && k !in t.actions ==>
          u.actions[k].origin == Some(TaskOrigin(source, project)) && u.actions[k].run in u.runs
          && u.actions[k].run !in t.runs)
  }

  /** Each new approval request asks about a new action, and each new audit row is of a new run. */
  predicate ProposesDecisions(t: Tables, u: Tables) {
    && (forall k :: k in u.approvals && k !in t.approvals ==>
          u.approvals[k].action in u.actions && u.approvals[k].action !in t.actions
          && u.approvals[k].run == u.actions[u.approvals[k].action].run)
    && (forall k :: k in u.audits && k !in t.audits ==>
          u.audits[k].Some? && u.audits[k].value in u.runs && u.audits[k].value !in t.runs)
  }

  predicate AddsToEach(t: Tables, u: Tables, count: nat) {
    && Adds(t.runs, u.runs, count) && Adds(t.actions, u.actions, count)
    && Adds(t.approvals, u.approvals, count) && Adds(t.audits, u.audits, count)
  }

  /** The rows of this many new proposals. */
  predicate ProposesTasks(t: Tables, u: Tables, project: nat, source: nat, count: nat) {
    AddsToEach(t, u, count) && ProposesRuns(t, u, project, source) && ProposesDecisions(t, u)
  }

  /** Everything else is as it was. */
  predicate OnlyProposes(s: Store, after: Store) {
    && after.made == s.made && s.next <= after.next
    && after.tables == s.tables.(runs := after.tables.runs, actions := after.tables.actions,
                                 approvals := after.tables.approvals, audits := after.tables.audits)
  }

  lemma ProposalCounts(s: Store, project: nat, source: nat)
    requires Numbered(s)
    ensures AddsToEach(s.tables, WithProposal(s, project, source).tables, 1)
  {
    var t, run, action := s.tables, s.next, s.next + 1;
    OneRowMore(t.runs, run, RunRow(Some(project), Deciding));
    OneRowMore(t.actions, action, ActionRow(run, Some(TaskOrigin(source, project))));
    OneRowMore(t.approvals, s.next + 2, Decision(action, run));
    OneRowMore(t.audits, s.next + 3, Some(run));
  }

  lemma ProposalAdds(s: Store, project: nat, source: nat)
    requires Numbered(s)
    ensures ProposesTasks(s.tables, WithProposal(s, project, source).tables, project, source, 1)
    ensures OnlyProposes(s, WithProposal(s, project, source))
  {
    ProposalCounts(s, project, source);
  }

  lemma ProposesMore(t: Tables, u: Tables, v: Tables, project: nat, source: nat, count: nat)
    requires ProposesTasks(t, u, project, source, count) && ProposesTasks(u, v, project, source, 1)
    ensures ProposesTasks(t, v, project, source, count + 1)
  {
  }

  /** One proposal after count others. */
  lemma OneProposalMore(s: Store, before: Store, after: Store, project: nat, source: nat, count: nat)
    requires Numbered(before) && OnlyProposes(s, before)
    requires ProposesTasks(s.tables, before.tables, project, source, count)
    requires after == WithProposal(before, project, source)
    ensures Numbered(after) && OnlyProposes(s, after)
    ensures ProposesTasks(s.tables, after.tables, project, source, count + 1)
  {
    ProposalNumbers(before, project, source);
    ProposalAdds(before, project, source);
    ProposesMore(s.tables, before.tables, after.tables, project, source, count);
  }

  lemma NoProposal(s: Store, project: nat, source: nat)
    ensures OnlyProposes(s, s) && ProposesTasks(s.tables, s.tables, project, source, 0)
  {
  }

  /** Stores that follow each other by one proposal each. */
  predicate Chain(stores: seq<Store>, project: nat, source: nat) {
    forall i :: 0 <= i < |stores| - 1 ==> stores[i + 1] == WithProposal(stores[i], project, source)
  }

  lemma {:induction false} ChainAdds(stores: seq<Store>, project: nat, source: nat, count: nat)
    requires count < |stores| && Chain(stores, project, source) && Numbered(stores[0])
    ensures Numbered(stores[count]) && OnlyProposes(stores[0], stores[count])
    ensures ProposesTasks(stores[0].tables, stores[count].tables, project, source, count)
    decreases count
  {
    if count == 0 {
      NoProposal(stores[0], project, source);
    } else {
      ChainAdds(stores, project, source, count - 1);
      OneProposalMore(stores[0], stores[count - 1], stores[count], project, source, count - 1);
    }
  }

  lemma {:induction false} ProposalsChain(s: Store, project: nat, source: nat, count: nat)
    returns (stores: seq<Store>)
    ensures |stores| == count + 1 && stores[0] == s && Chain(stores, project, source)
    ensures stores[count] == WithProposals(s, project, source, count)
    decreases count
  {
    if count == 0 {
      stores := [s];
    } else {
      stores := ProposalsChain(s, project, source, count - 1);
      stores := stores + [WithProposal(stores[count - 1], project, source)];
    }
  }

  lemma ProposalsAdd(s: Store, after: Store, project: nat, source: nat, count: nat)
    requires Numbered(s) && after == WithProposals(s, project, source, count)
    ensures OnlyProposes(s, after) && ProposesTasks(s.tables, after.tables, project, source, count)
  {
    var stores := ProposalsChain(s, project, source, count);
    ChainAdds(stores, project, source, count);
  }

  predicate CapturesInto(s: Store, after: Store, project: nat, source: nat, count: nat) {
    && source !in s.tables.sources
    && after.tables.sources == s.tables.sources[source := project]
    && ProposesTasks(s.tables, after.tables, project, source, count)
    && OnlyProposes(s.(tables := s.tables.(sources := after.tables.sources)), after)
  }

  /** What a capture adds: its source, and for each task found a run of the project that waits for a
      decision, with one action that names that source, and its approval request and audit row. */
  lemma CaptureAdds(steps: seq<Step>, project: nat, count: nat)
    ensures var s, after := After(steps), Next(After(steps), Capture(project, count));
      if project !in s.tables.projects then after == s
      else exists source :: CapturesInto(s, after, project, source, count)
  {
    ReachableNumbered(steps);
    if project in After(steps).tables.projects {
      CapturedAdds(After(steps), project, count);
      assert CapturesInto(After(steps), Next(After(steps), Capture(project, count)), project, After(steps).next, count);
    }
  }

  lemma ReachableNumbered(steps: seq<Step>)
    ensures Numbered(After(steps))
  {
    ReachableOk(steps);
  }

  lemma CapturedAdds(s: Store, project: nat, count: nat)
    requires Numbered(s) && project in s.tables.projects
    ensures CapturesInto(s, Captured(s, project, count), project, s.next, count)
  {
    ProposalsAdd(WithSource(s, project), Captured(s, project, count), project, s.next, count);
  }

  /** The one new task lies in the project and comes from the source that the proposal names. */
  predicate MakesTask(s: Store, after: Store, action: nat, task: nat)
    requires action in s.tables.actions && s.tables.actions[action].origin.Some?
  {
    var origin := s.tables.actions[action].origin.value;
    && task !in s.tables.tasks
    && after.tables.tasks == s.tables.tasks[task := Task(origin.project, Some(origin.source), Some(action))]
    && after.made == s.made + [action]
  }

  /** The run has ended in this state and its execution is recorded; nothing but tasks differs besides. */
  predicate EndsRun(s: Store, after: Store, action: nat, state: RunState)
    requires action in s.tables.actions && s.tables.actions[action].run in s.tables.runs
  {
    var t, run := s.tables, s.tables.actions[action].run;
    && after.tables == t.(runs := t.runs[run := t.runs[run].(state := state)],
                          executions := t.executions + {TaskKey(action)}, tasks := after.tables.tasks)
  }

  /** What making a task does: it makes the task and finishes the run, a failure stops the run and makes
      nothing, and a proposal that is not claimed is left alone. */
  lemma MakingAdds(steps: seq<Step>, action: nat, succeeded: bool)
    ensures var s, after := After(steps), Next(After(steps), Make(action, succeeded));
      if StateOf(s.tables, action) != Some(Claimed) || s.tables.actions[action].origin.None? then after == s
      else if succeeded then EndsRun(s, after, action, Finished) && exists task :: MakesTask(s, after, action, task)
      else EndsRun(s, after, action, Stopped) && after.tables.tasks == s.tables.tasks && after.made == s.made
  {
    ReachableOk(steps);
    var s := After(steps);
    if Proposes(s.tables, action, Claimed) {
      OriginsHold(s, action);
      if succeeded {
        assert MakesTask(s, Made(s, action, true), action, s.next);
      }
    }
  }
}
