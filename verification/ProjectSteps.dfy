/** The steps that fill a project's tables: captured sources, their task proposals, and deletion. */
module ProjectSteps {
  import opened Wrappers
  import opened LocalRuntime
  import opened ProjectTables

  /** The tables, the proposals that have ever become tasks, and the next unused identifier. */
  datatype Store = Store(tables: Tables, made: seq<nat>, next: nat)

  datatype Step =
    | CreateProject
    | AddMember(project: nat)
    | Capture(project: nat, proposals: nat)
    | CreateManual(project: nat)
    | DeleteTask(task: nat)
    | Accept(action: nat)
    | Take(action: nat)
    | Make(action: nat, succeeded: bool)
    | Stop(run: nat)
    | OtherRun(key: Key)
    | DeleteProject(project: nat)

  const EMPTY := Store(Tables({}, map[], map[], map[], map[], map[], map[], map[], map[], {}, map[]), [], 0)

  // ----- Each step

  function WithMember(s: Store, project: nat): Store {
    if project !in s.tables.projects then s
    else Store(s.tables.(members := s.tables.members[s.next := project]), s.made, s.next + 1)
  }

  /** One proposal of a captured source: its run, action, approval request and audit row. */
  function WithProposal(s: Store, project: nat, source: nat): Store {
    var t := s.tables;
    var run, action := s.next, s.next + 1;
    Store(t.(runs := t.runs[run := RunRow(Some(project), Deciding)],
             actions := t.actions[action := ActionRow(run, Some(TaskOrigin(source, project)))],
             approvals := t.approvals[s.next + 2 := Decision(action, run)],
             audits := t.audits[s.next + 3 := Some(run)]),
          s.made, s.next + 4)
  }

  function WithProposals(s: Store, project: nat, source: nat, count: nat): Store {
    if count == 0 then s else WithProposal(WithProposals(s, project, source, count - 1), project, source)
  }

  function WithSource(s: Store, project: nat): Store {
    Store(s.tables.(sources := s.tables.sources[s.next := project]), s.made, s.next + 1)
  }

  function Captured(s: Store, project: nat, count: nat): Store {
    if project !in s.tables.projects then s
    else WithProposals(WithSource(s, project), project, s.next, count)
  }

  function WithTask(s: Store, task: Task): Store {
    Store(s.tables.(tasks := s.tables.tasks[s.next := task]), s.made, s.next + 1)
  }

  function InState(s: Store, run: nat, state: RunState): Store
    requires run in s.tables.runs
  {
    s.(tables := s.tables.(runs := s.tables.runs[run := s.tables.runs[run].(state := state)]))
  }

  predicate Proposes(t: Tables, action: nat, state: RunState) {
    && action in t.actions && t.actions[action].origin.Some?
    && t.actions[action].run in t.runs && t.runs[t.actions[action].run].state == state
  }

  function Moved(s: Store, action: nat, from: RunState, to: RunState): Store {
    if !Proposes(s.tables, action, from) then s else InState(s, s.tables.actions[action].run, to)
  }

  predicate HasTask(t: Tables, action: nat) {
    exists k :: k in t.tasks && t.tasks[k].proposal == Some(action)
  }

  /** The first commit of an execution; a proposal that has its task already is left alone. */
  function Taken(s: Store, action: nat): Store {
    if HasTask(s.tables, action) then s else Moved(s, action, Released, Claimed)
  }

  /** The project and source that the approved payload names exist and belong together. */
  predicate OriginHolds(t: Tables, origin: TaskOrigin) {
    origin.project in t.projects && origin.source in t.sources && t.sources[origin.source] == origin.project
  }

  /** The second commit: the task, or the failure. */
  function Made(s: Store, action: nat, succeeded: bool): Store {
    if !Proposes(s.tables, action, Claimed) then s
    else
      var row := s.tables.actions[action];
      if !succeeded
      then InState(s.(tables := s.tables.(executions := s.tables.executions + {TaskKey(action)})), row.run, Stopped)
      else if !OriginHolds(s.tables, row.origin.value) then s
      else
        var origin := row.origin.value;
        var done := InState(WithTask(s, Task(origin.project, Some(origin.source), Some(action))), row.run, Finished);
        done.(tables := done.tables.(executions := done.tables.executions + {TaskKey(action)}),
              made := s.made + [action])
  }

  function WithoutTask(s: Store, task: nat): Store {
    s.(tables := s.tables.(tasks := s.tables.tasks - {task}))
  }

  /** Cancels or rejects a run that has not finished. */
  function Halted(s: Store, run: nat): Store {
    if run !in s.tables.runs || s.tables.runs[run].state == Finished then s else InState(s, run, Stopped)
  }

  /** A run outside any project, with a document, an action, its approval, artifact and execution. */
  function WithOtherRun(s: Store, key: Key): Store {
    var t := s.tables;
    var run, action := s.next, s.next + 1;
    Store(t.(runs := t.runs[run := RunRow(None, Deciding)],
             documents := t.documents[s.next + 2 := run],
             actions := t.actions[action := ActionRow(run, None)],
             approvals := t.approvals[s.next + 3 := Decision(action, run)],
             artifacts := t.artifacts[s.next + 4 := Decision(action, run)],
             audits := t.audits[s.next + 5 := Some(run)],
             executions := t.executions + {key}),
          s.made, s.next + 6)
  }

  /** Deletes the project's rows and writes an audit row of its own. */
  function Deleted(s: Store, project: nat): Store {
    if project !in s.tables.projects then s
    else
      var t := Deleting(s.tables, project, STATEMENTS);
      Store(t.(audits := t.audits[s.next := None]), s.made, s.next + 1)
  }

  function Next(s: Store, step: Step): Store {
    match step
    case CreateProject => Store(s.tables.(projects := s.tables.projects + {s.next}), s.made, s.next + 1)
    case AddMember(project) => WithMember(s, project)
    case Capture(project, proposals) => Captured(s, project, proposals)
    case CreateManual(project) => if project in s.tables.projects then WithTask(s, Task(project, None, None)) else s
    case DeleteTask(task) => WithoutTask(s, task)
    case Accept(action) => Moved(s, action, Deciding, Released)
    case Take(action) => Taken(s, action)
    case Make(action, succeeded) => Made(s, action, succeeded)
    case Stop(run) => Halted(s, run)
    case OtherRun(key) => WithOtherRun(s, key)
    case DeleteProject(project) => Deleted(s, project)
  }

  function After(steps: seq<Step>): Store {
    if steps == [] then EMPTY else Next(After(steps[..|steps| - 1]), steps[|steps| - 1])
  }

  // ----- The invariant

  /** A task lies in the project of its source and of its proposal's run, and so does a proposal. */
  predicate Rooted(t: Tables) {
    && (forall k :: k in t.tasks ==> TaskRooted(t, t.tasks[k]))
    && (forall k :: k in t.actions ==> ActionRooted(t, t.actions[k]))
  }

  predicate TaskRooted(t: Tables, task: Task) {
    && (task.source.Some? ==> task.source.value in t.sources && t.sources[task.source.value] == task.project)
    && (task.proposal.Some? ==>
          && task.proposal.value in t.actions
          && t.actions[task.proposal.value].run in t.runs
          && t.runs[t.actions[task.proposal.value].run].project == Some(task.project))
  }

  predicate ActionRooted(t: Tables, action: ActionRow) {
    action.origin.Some? ==>
      && action.origin.value.source in t.sources
      && t.sources[action.origin.value.source] == action.origin.value.project
      && action.run in t.runs
      && t.runs[action.run].project == Some(action.origin.value.project)
  }

  /** Identifiers in use are below the next one. */
  predicate Numbered(s: Store) {
    && (forall k :: k in s.tables.projects ==> k < s.next)
    && (forall k :: k in s.tables.sources ==> k < s.next)
    && (forall k :: k in s.tables.runs ==> k < s.next)
    && (forall k :: k in s.tables.actions ==> k < s.next)
    && (forall k :: k in s.tables.tasks ==> k < s.next)
    && (forall k :: k in s.tables.members ==> k < s.next)
    && (forall k :: k in s.tables.approvals ==> k < s.next)
    && (forall k :: k in s.tables.artifacts ==> k < s.next)
    && (forall k :: k in s.tables.documents ==> k < s.next)
    && (forall k :: k in s.tables.audits ==> k < s.next)
    && (forall a :: a in s.made ==> a < s.next)
  }

  predicate NoRepeats(made: seq<nat>) {
    forall i, j :: 0 <= i < j < |made| ==> made[i] != made[j]
  }

  /** A proposal that became a task has a finished run; a task's proposal is one of them, and is its
      alone. */
  predicate MadeOnce(s: Store) {
    && NoRepeats(s.made)
    && (forall a :: a in s.made && a in s.tables.actions ==> RunFinished(s.tables, s.tables.actions[a].run))
    && (forall k :: k in s.tables.tasks && s.tables.tasks[k].proposal.Some?
         ==> s.tables.tasks[k].proposal.value in s.made)
    && UniqueProposals(s.tables.tasks)
  }

  predicate RunFinished(t: Tables, run: nat) {
    run in t.runs && t.runs[run].state == Finished
  }

  predicate UniqueProposals(tasks: map<nat, Task>) {
    forall k, m :: k in tasks && m in tasks && k != m && tasks[k].proposal.Some?
      ==> tasks[k].proposal != tasks[m].proposal
  }

  predicate StoreOk(s: Store) {
    ForeignKeys(s.tables) && Rooted(s.tables) && Numbered(s) && MadeOnce(s)
  }

  lemma RootedIsNotLeanedOn(t: Tables, project: nat)
    requires Rooted(t) && project in t.projects
    ensures NotLeanedOn(t, project)
  {
    forall k | k in t.tasks && t.tasks[k].project != project
      ensures !LeansOn(t, t.tasks[k], project)
    {
      assert TaskRooted(t, t.tasks[k]);
    }
  }

  /** Rows that others lean on are still there, in the same project. */
  predicate Extends(t: Tables, u: Tables) {
    && (forall k :: k in t.sources ==> k in u.sources && u.sources[k] == t.sources[k])
    && (forall k :: k in t.runs ==> k in u.runs && u.runs[k].project == t.runs[k].project)
    && (forall k :: k in t.actions ==> k in u.actions && u.actions[k] == t.actions[k])
  }

  lemma ExtensionRoots(t: Tables, u: Tables)
    requires Rooted(t) && Extends(t, u)
    requires forall k :: k in u.tasks ==> (k in t.tasks && u.tasks[k] == t.tasks[k]) || TaskRooted(u, u.tasks[k])
    requires forall k :: k in u.actions && k !in t.actions ==> ActionRooted(u, u.actions[k])
    ensures Rooted(u)
  {
    forall k | k in u.tasks
      ensures TaskRooted(u, u.tasks[k])
    {
      assert k in t.tasks ==> TaskRooted(t, t.tasks[k]);
    }
    forall k | k in u.actions
      ensures ActionRooted(u, u.actions[k])
    {
      assert k in t.actions ==> ActionRooted(t, t.actions[k]);
    }
  }

  lemma ProposalLinks(s: Store, project: nat, source: nat)
    requires ForeignKeys(s.tables) && Numbered(s) && project in s.tables.projects
    ensures ForeignKeys(WithProposal(s, project, source).tables)
  {
  }

  lemma ProposalNumbers(s: Store, project: nat, source: nat)
    requires Numbered(s)
    ensures Numbered(WithProposal(s, project, source))
  {
  }

  lemma ProposalKeeps(s: Store, project: nat, source: nat)
    requires StoreOk(s) && project in s.tables.projects && source in s.tables.sources
            && s.tables.sources[source] == project
    ensures StoreOk(WithProposal(s, project, source))
  {
    ProposalLinks(s, project, source);
    ProposalNumbers(s, project, source);
    ExtensionRoots(s.tables, WithProposal(s, project, source).tables);
  }

  lemma {:induction false} ProposalsKeep(s: Store, project: nat, source: nat, count: nat)
    requires StoreOk(s) && project in s.tables.projects && source in s.tables.sources
            && s.tables.sources[source] == project
    ensures var after := WithProposals(s, project, source, count);
      StoreOk(after) && after.tables.projects == s.tables.projects && after.tables.sources == s.tables.sources
  {
    if count != 0 {
      ProposalsKeep(s, project, source, count - 1);
      ProposalKeeps(WithProposals(s, project, source, count - 1), project, source);
    }
  }

  lemma CaptureKeeps(s: Store, project: nat, count: nat)
    requires StoreOk(s)
    ensures StoreOk(Captured(s, project, count))
  {
    if project in s.tables.projects {
      ExtensionRoots(s.tables, WithSource(s, project).tables);
      ProposalsKeep(WithSource(s, project), project, s.next, count);
    }
  }

  lemma CreationKeeps(s: Store)
    requires StoreOk(s)
    ensures StoreOk(Next(s, CreateProject))
  {
    ExtensionRoots(s.tables, Next(s, CreateProject).tables);
  }

  lemma MemberKeeps(s: Store, project: nat)
    requires StoreOk(s)
    ensures StoreOk(WithMember(s, project))
  {
    ExtensionRoots(s.tables, WithMember(s, project).tables);
  }

  lemma TaskRemovalKeeps(s: Store, task: nat)
    requires StoreOk(s)
    ensures StoreOk(WithoutTask(s, task))
  {
    ExtensionRoots(s.tables, WithoutTask(s, task).tables);
  }

  lemma ManualTaskNumbers(s: Store, project: nat)
    requires Numbered(s) && MadeOnce(s)
    ensures Numbered(WithTask(s, Task(project, None, None)))
    ensures MadeOnce(WithTask(s, Task(project, None, None)))
  {
  }

  lemma ManualTaskLinks(t: Tables, id: nat, project: nat)
    requires ForeignKeys(t) && Rooted(t) && project in t.projects
    ensures var u := t.(tasks := t.tasks[id := Task(project, None, None)]);
      ForeignKeys(u) && Rooted(u)
  {
    ExtensionRoots(t, t.(tasks := t.tasks[id := Task(project, None, None)]));
  }

  lemma ManualTaskKeeps(s: Store, project: nat)
    requires StoreOk(s) && project in s.tables.projects
    ensures StoreOk(WithTask(s, Task(project, None, None)))
  {
    ManualTaskNumbers(s, project);
    ManualTaskLinks(s.tables, s.next, project);
  }

  lemma StateKeeps(s: Store, run: nat, state: RunState)
    requires StoreOk(s) && run in s.tables.runs && s.tables.runs[run].state != Finished
    ensures StoreOk(InState(s, run, state))
  {
    ExtensionRoots(s.tables, InState(s, run, state).tables);
  }

  lemma ExecutionsKeep(s: Store, executions: set<Key>)
    requires StoreOk(s)
    ensures StoreOk(s.(tables := s.tables.(executions := executions)))
  {
    ExtensionRoots(s.tables, s.tables.(executions := executions));
  }

  /** The project and source of a proposal are always there when its task is made. */
  lemma OriginsHold(s: Store, action: nat)
    requires StoreOk(s) && Proposes(s.tables, action, Claimed)
    ensures OriginHolds(s.tables, s.tables.actions[action].origin.value)
    ensures action !in s.made
  {
    assert ActionRooted(s.tables, s.tables.actions[action]);
    assert s.tables.actions[action].origin.value.project in s.tables.projects;
  }

  lemma MakingLinks(s: Store, action: nat)
    requires StoreOk(s) && Proposes(s.tables, action, Claimed)
    ensures ForeignKeys(Made(s, action, true).tables) && Rooted(Made(s, action, true).tables)
  {
    OriginsHold(s, action);
    assert ActionRooted(s.tables, s.tables.actions[action]);
    ExtensionRoots(s.tables, Made(s, action, true).tables);
  }

  lemma MakingOnce(s: Store, action: nat)
    requires StoreOk(s) && Proposes(s.tables, action, Claimed)
    ensures MadeOnce(Made(s, action, true))
  {
    OriginsHold(s, action);
    var after := Made(s, action, true);
    forall a | a in after.made && a in after.tables.actions
      ensures RunFinished(after.tables, after.tables.actions[a].run)
    {
      assert a in s.made || a == action;
    }
  }

  lemma MakingNumbers(s: Store, action: nat)
    requires Numbered(s) && Proposes(s.tables, action, Claimed)
    ensures Numbered(Made(s, action, true))
  {
  }

  lemma MakingKeeps(s: Store, action: nat, succeeded: bool)
    requires StoreOk(s)
    ensures StoreOk(Made(s, action, succeeded))
  {
    if Proposes(s.tables, action, Claimed) {
      if succeeded {
        MakingLinks(s, action);
        MakingNumbers(s, action);
        MakingOnce(s, action);
      } else {
        ExecutionsKeep(s, s.tables.executions + {TaskKey(action)});
        StateKeeps(s.(tables := s.tables.(executions := s.tables.executions + {TaskKey(action)})),
                   s.tables.actions[action].run, Stopped);
      }
    }
  }

  lemma OtherRunLinks(s: Store, key: Key)
    requires ForeignKeys(s.tables) && Numbered(s)
    ensures ForeignKeys(WithOtherRun(s, key).tables)
  {
  }

  lemma OtherRunNumbers(s: Store, key: Key)
    requires Numbered(s)
    ensures Numbered(WithOtherRun(s, key))
  {
  }

  lemma OtherRunKeeps(s: Store, key: Key)
    requires StoreOk(s)
    ensures StoreOk(WithOtherRun(s, key))
  {
    OtherRunLinks(s, key);
    OtherRunNumbers(s, key);
    ExtensionRoots(s.tables, WithOtherRun(s, key).tables);
  }

  lemma DeletionRoots(t: Tables, project: nat)
    requires Rooted(t) && ForeignKeys(t)
    ensures Rooted(Deleting(t, project, STATEMENTS))
  {
    var runs := RunsOf(t.runs, project);
    ExecutedClears(t, STATEMENTS, project, runs, ActionsOf(t.actions, runs));
    var u := Deleting(t, project, STATEMENTS);
    forall k | k in u.tasks
      ensures TaskRooted(u, u.tasks[k])
    {
      assert TaskRooted(t, t.tasks[k]);
    }
    forall k | k in u.actions
      ensures ActionRooted(u, u.actions[k])
    {
      assert ActionRooted(t, t.actions[k]);
    }
  }

  lemma DeletionKeeps(s: Store, project: nat)
    requires StoreOk(s)
    ensures StoreOk(Deleted(s, project))
  {
    if project in s.tables.projects {
      var t := Deleting(s.tables, project, STATEMENTS);
      RootedIsNotLeanedOn(s.tables, project);
      KeysStayValid(s.tables, project, STATEMENTS);
      DeletionRoots(s.tables, project);
      OnlyOwnRowsGo(s.tables, project);
      ExtensionRoots(t, t.(audits := t.audits[s.next := None]));
    }
  }

  lemma MoveKeeps(s: Store, action: nat, from: RunState, to: RunState)
    requires StoreOk(s) && from != Finished
    ensures StoreOk(Moved(s, action, from, to))
  {
    if Proposes(s.tables, action, from) {
      StateKeeps(s, s.tables.actions[action].run, to);
    }
  }

  lemma HaltKeeps(s: Store, run: nat)
    requires StoreOk(s)
    ensures StoreOk(Halted(s, run))
  {
    if run in s.tables.runs && s.tables.runs[run].state != Finished {
      StateKeeps(s, run, Stopped);
    }
  }

  /** Every step keeps the foreign keys, the provenance of tasks, and one task a proposal. */
  lemma StepKeeps(s: Store, step: Step)
    requires StoreOk(s)
    ensures StoreOk(Next(s, step))
  {
    match step
    case CreateProject => CreationKeeps(s);
    case AddMember(project) => MemberKeeps(s, project);
    case Capture(project, proposals) => CaptureKeeps(s, project, proposals);
    case CreateManual(project) =>
      if project in s.tables.projects {
        ManualTaskKeeps(s, project);
      }
    case DeleteTask(task) => TaskRemovalKeeps(s, task);
    case Accept(action) => MoveKeeps(s, action, Deciding, Released);
    case Take(action) => MoveKeeps(s, action, Released, Claimed);
    case Make(action, succeeded) => MakingKeeps(s, action, succeeded);
    case Stop(run) => HaltKeeps(s, run);
    case OtherRun(key) => OtherRunKeeps(s, key);
    case DeleteProject(project) => DeletionKeeps(s, project);
  }

  lemma {:induction false} ReachableOk(steps: seq<Step>)
    ensures StoreOk(After(steps))
  {
    if steps != [] {
      ReachableOk(steps[..|steps| - 1]);
      StepKeeps(After(steps[..|steps| - 1]), steps[|steps| - 1]);
    }
  }

  /** In every reachable store, deleting a project keeps every foreign key valid after each of its
      statements. */
  lemma DeletionNeverViolatesKeys(steps: seq<Step>, project: nat)
    requires project in After(steps).tables.projects
    ensures SafeThroughout(After(steps).tables, project)
  {
    ReachableOk(steps);
    RootedIsNotLeanedOn(After(steps).tables, project);
    DeletionIsSafeIff(After(steps).tables, project);
  }

  /** In every reachable store, a task, its source and its proposal's run lie in one project. */
  lemma TasksStayRooted(steps: seq<Step>, k: nat)
    requires k in After(steps).tables.tasks
    ensures TaskRooted(After(steps).tables, After(steps).tables.tasks[k])
  {
    ReachableOk(steps);
  }

  /** Over every run of steps, deletions of tasks and projects included, no proposal becomes a task
      twice. */
  lemma ProposalsBecomeTasksOnce(steps: seq<Step>, i: nat, j: nat)
    requires i < j < |After(steps).made|
    ensures After(steps).made[i] != After(steps).made[j]
  {
    ReachableOk(steps);
  }

  /** Executing an accepted proposal again makes no further task: while the task exists the second
      execution stops at it, and afterwards the run has finished. */
  lemma ExecutingAgainMakesNothing(steps: seq<Step>, action: nat, succeeded: bool)
    requires action in After(steps).made
    ensures var s := After(steps);
      Made(Taken(s, action), action, succeeded) == s
  {
    ReachableOk(steps);
    var s := After(steps);
    if action in s.tables.actions {
      assert RunFinished(s.tables, s.tables.actions[action].run);
    }
  }
}
