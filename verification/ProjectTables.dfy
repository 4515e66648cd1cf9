/** The tables around a project, their foreign keys, and the statements that delete a project. */
module ProjectTables {
  import opened Wrappers
  import opened LocalRuntime

  datatype Task = Task(project: nat, source: Option<nat>, proposal: Option<nat>)

  datatype RunState = Deciding | Released | Claimed | Finished | Stopped

  datatype RunRow = RunRow(project: Option<nat>, state: RunState)

  /** The source and project that a task proposal names in its payload. */
  datatype TaskOrigin = TaskOrigin(source: nat, project: nat)

  datatype ActionRow = ActionRow(run: nat, origin: Option<TaskOrigin>)

  /** A row of the approval or the artifact table: both name an action together with its run. */
  datatype Decision = Decision(action: nat, run: nat)

  datatype Tables = Tables(
    projects: set<nat>,
    members: map<nat, nat>,
    sources: map<nat, nat>,
    runs: map<nat, RunRow>,
    actions: map<nat, ActionRow>,
    approvals: map<nat, Decision>,
    artifacts: map<nat, Decision>,
    documents: map<nat, nat>,
    audits: map<nat, Option<nat>>,
    executions: set<Key>,
    tasks: map<nat, Task>)

  // ----- Foreign keys

  predicate TasksLinked(tasks: map<nat, Task>, projects: set<nat>, sources: map<nat, nat>,
                        actions: map<nat, ActionRow>) {
    forall k :: k in tasks ==>
      && tasks[k].project in projects
      && (tasks[k].source.Some? ==> tasks[k].source.value in sources)
      && (tasks[k].proposal.Some? ==> tasks[k].proposal.value in actions)
  }

  /** Members or sources, which name their project. */
  predicate OwnedLinked(rows: map<nat, nat>, projects: set<nat>) {
    forall k :: k in rows ==> rows[k] in projects
  }

  predicate RunsLinked(runs: map<nat, RunRow>, projects: set<nat>) {
    forall k :: k in runs && runs[k].project.Some? ==> runs[k].project.value in projects
  }

  predicate ActionsLinked(actions: map<nat, ActionRow>, runs: map<nat, RunRow>) {
    forall k :: k in actions ==> actions[k].run in runs
  }

  /** The composite key of approvals and artifacts: an action of that very run. */
  predicate DecisionsLinked(decisions: map<nat, Decision>, actions: map<nat, ActionRow>, runs: map<nat, RunRow>) {
    forall k :: k in decisions ==>
      && decisions[k].run in runs
      && decisions[k].action in actions
      && actions[decisions[k].action].run == decisions[k].run
  }

  predicate DocumentsLinked(documents: map<nat, nat>, runs: map<nat, RunRow>) {
    forall k :: k in documents ==> documents[k] in runs
  }

  predicate AuditsLinked(audits: map<nat, Option<nat>>, runs: map<nat, RunRow>) {
    forall k :: k in audits && audits[k].Some? ==> audits[k].value in runs
  }

  predicate ForeignKeys(t: Tables) {
    && TasksLinked(t.tasks, t.projects, t.sources, t.actions)
    && OwnedLinked(t.members, t.projects)
    && OwnedLinked(t.sources, t.projects)
    && RunsLinked(t.runs, t.projects)
    && ActionsLinked(t.actions, t.runs)
    && DecisionsLinked(t.approvals, t.actions, t.runs)
    && DecisionsLinked(t.artifacts, t.actions, t.runs)
    && DocumentsLinked(t.documents, t.runs)
    && AuditsLinked(t.audits, t.runs)
  }

  // ----- Deleting a project

  function RunsOf(runs: map<nat, RunRow>, project: nat): set<nat> {
    set k | k in runs && runs[k].project == Some(project)
  }

  function ActionsOf(actions: map<nat, ActionRow>, runs: set<nat>): set<nat> {
    set k | k in actions && actions[k].run in runs
  }

  /** The execution keys that name one of the runs, or the task key of one of the actions. */
  predicate Named(key: Key, runs: set<nat>, actions: set<nat>) {
    match key
    case LearnKey(run, _) => run in runs
    case PlanKey(run, _) => run in runs
    case CollaborateKey(run, _) => run in runs
    case TaskKey(action) => action in actions
    case OtherKey(_) => false
  }

  predicate AuditOf(audit: Option<nat>, runs: set<nat>) {
    audit.Some? && audit.value in runs
  }

  function TasksOutside(tasks: map<nat, Task>, project: nat): map<nat, Task> {
    map k | k in tasks && tasks[k].project != project :: tasks[k]
  }

  function OwnedOutside(rows: map<nat, nat>, project: nat): map<nat, nat> {
    map k | k in rows && rows[k] != project :: rows[k]
  }

  function RunsOutside(rows: map<nat, RunRow>, runs: set<nat>): map<nat, RunRow> {
    map k | k in rows && k !in runs :: rows[k]
  }

  function ActionsOutside(actions: map<nat, ActionRow>, runs: set<nat>): map<nat, ActionRow> {
    map k | k in actions && actions[k].run !in runs :: actions[k]
  }

  function DecisionsOutside(decisions: map<nat, Decision>, runs: set<nat>): map<nat, Decision> {
    map k | k in decisions && decisions[k].run !in runs :: decisions[k]
  }

  function DocumentsOutside(documents: map<nat, nat>, runs: set<nat>): map<nat, nat> {
    map k | k in documents && documents[k] !in runs :: documents[k]
  }

  function AuditsOutside(audits: map<nat, Option<nat>>, runs: set<nat>): map<nat, Option<nat>> {
    map k | k in audits && !AuditOf(audits[k], runs) :: audits[k]
  }

  function ExecutionsOutside(executions: set<Key>, runs: set<nat>, actions: set<nat>): set<Key> {
    set k | k in executions && !Named(k, runs, actions)
  }

  const STATEMENTS := 11

  /** The n-th delete statement; the runs and actions were read before the first. */
  function Statement(t: Tables, n: nat, project: nat, runs: set<nat>, actions: set<nat>): Tables {
    match n
    case 0 => t.(tasks := TasksOutside(t.tasks, project))
    case 1 => t.(approvals := DecisionsOutside(t.approvals, runs))
    case 2 => t.(artifacts := DecisionsOutside(t.artifacts, runs))
    case 3 => t.(actions := ActionsOutside(t.actions, runs))
    case 4 => t.(documents := DocumentsOutside(t.documents, runs))
    case 5 => t.(audits := AuditsOutside(t.audits, runs))
    case 6 => t.(executions := ExecutionsOutside(t.executions, runs, actions))
    case 7 => t.(runs := RunsOutside(t.runs, runs))
    case 8 => t.(sources := OwnedOutside(t.sources, project))
    case 9 => t.(members := OwnedOutside(t.members, project))
    case 10 => t.(projects := t.projects - {project})
    case _ => t
  }

  /** The tables after the first count statements. */
  function Executed(t: Tables, count: nat, project: nat, runs: set<nat>, actions: set<nat>): Tables {
    if count == 0 then t
    else Statement(Executed(t, count - 1, project, runs, actions), count - 1, project, runs, actions)
  }

  function Deleting(t: Tables, project: nat, count: nat): Tables {
    var runs := RunsOf(t.runs, project);
    Executed(t, count, project, runs, ActionsOf(t.actions, runs))
  }

  /** The tables that the first count statements have cleared of the project, all at once. */
  function Cleared(t: Tables, count: nat, project: nat, runs: set<nat>, actions: set<nat>): Tables {
    Tables(
      if count > 10 then t.projects - {project} else t.projects,
      if count > 9 then OwnedOutside(t.members, project) else t.members,
      if count > 8 then OwnedOutside(t.sources, project) else t.sources,
      if count > 7 then RunsOutside(t.runs, runs) else t.runs,
      if count > 3 then ActionsOutside(t.actions, runs) else t.actions,
      if count > 1 then DecisionsOutside(t.approvals, runs) else t.approvals,
      if count > 2 then DecisionsOutside(t.artifacts, runs) else t.artifacts,
      if count > 4 then DocumentsOutside(t.documents, runs) else t.documents,
      if count > 5 then AuditsOutside(t.audits, runs) else t.audits,
      if count > 6 then ExecutionsOutside(t.executions, runs, actions) else t.executions,
      if count > 0 then TasksOutside(t.tasks, project) else t.tasks)
  }

  lemma {:induction false} ExecutedClears(t: Tables, count: nat, project: nat, runs: set<nat>, actions: set<nat>)
    requires count <= STATEMENTS
    ensures Executed(t, count, project, runs, actions) == Cleared(t, count, project, runs, actions)
  {
    if count != 0 {
      ExecutedClears(t, count - 1, project, runs, actions);
    }
  }

  /** No task of another project leans on a source or a proposal of this one. */
  predicate NotLeanedOn(t: Tables, project: nat) {
    forall k :: k in t.tasks && t.tasks[k].project != project ==> !LeansOn(t, t.tasks[k], project)
  }

  predicate LeansOn(t: Tables, task: Task, project: nat) {
    || (task.source.Some? && task.source.value in t.sources && t.sources[task.source.value] == project)
    || (task.proposal.Some? && task.proposal.value in t.actions
        && t.actions[task.proposal.value].run in RunsOf(t.runs, project))
  }

  lemma TasksStayLinked(t: Tables, project: nat, count: nat)
    requires ForeignKeys(t) && count <= STATEMENTS && NotLeanedOn(t, project)
    ensures var u := Cleared(t, count, project, RunsOf(t.runs, project), ActionsOf(t.actions, RunsOf(t.runs, project)));
      TasksLinked(u.tasks, u.projects, u.sources, u.actions)
  {
    var u := Cleared(t, count, project, RunsOf(t.runs, project), ActionsOf(t.actions, RunsOf(t.runs, project)));
    forall k | k in u.tasks
      ensures u.tasks[k].project in u.projects
      ensures u.tasks[k].source.Some? ==> u.tasks[k].source.value in u.sources
      ensures u.tasks[k].proposal.Some? ==> u.tasks[k].proposal.value in u.actions
    {
      assert u.tasks[k] == t.tasks[k];
      assert count > 0 ==> !LeansOn(t, t.tasks[k], project);
    }
  }

  lemma OwnedStayLinked(rows: map<nat, nat>, projects: set<nat>, project: nat)
    requires OwnedLinked(rows, projects)
    ensures OwnedLinked(OwnedOutside(rows, project), projects)
    ensures OwnedLinked(OwnedOutside(rows, project), projects - {project})
  {
  }

  lemma RunsStayLinked(runs: map<nat, RunRow>, projects: set<nat>, project: nat)
    requires RunsLinked(runs, projects)
    ensures RunsLinked(RunsOutside(runs, RunsOf(runs, project)), projects)
    ensures RunsLinked(RunsOutside(runs, RunsOf(runs, project)), projects - {project})
  {
  }

  lemma ActionsStayLinked(actions: map<nat, ActionRow>, rows: map<nat, RunRow>, runs: set<nat>)
    requires ActionsLinked(actions, rows)
    ensures ActionsLinked(ActionsOutside(actions, runs), rows)
    ensures ActionsLinked(ActionsOutside(actions, runs), RunsOutside(rows, runs))
  {
  }

  lemma DecisionsStayLinked(decisions: map<nat, Decision>, actions: map<nat, ActionRow>, rows: map<nat, RunRow>,
                            runs: set<nat>)
    requires DecisionsLinked(decisions, actions, rows)
    ensures DecisionsLinked(DecisionsOutside(decisions, runs), actions, rows)
    ensures DecisionsLinked(DecisionsOutside(decisions, runs), ActionsOutside(actions, runs), rows)
    ensures DecisionsLinked(DecisionsOutside(decisions, runs), ActionsOutside(actions, runs), RunsOutside(rows, runs))
  {
  }

  lemma RecordsStayLinked(documents: map<nat, nat>, audits: map<nat, Option<nat>>, rows: map<nat, RunRow>,
                          runs: set<nat>)
    requires DocumentsLinked(documents, rows) && AuditsLinked(audits, rows)
    ensures DocumentsLinked(DocumentsOutside(documents, runs), rows)
    ensures DocumentsLinked(DocumentsOutside(documents, runs), RunsOutside(rows, runs))
    ensures AuditsLinked(AuditsOutside(audits, runs), rows)
    ensures AuditsLinked(AuditsOutside(audits, runs), RunsOutside(rows, runs))
  {
  }

  lemma KeysStayValid(t: Tables, project: nat, count: nat)
    requires ForeignKeys(t) && count <= STATEMENTS && NotLeanedOn(t, project)
    ensures ForeignKeys(Deleting(t, project, count))
  {
    var runs := RunsOf(t.runs, project);
    var actions := ActionsOf(t.actions, runs);
    ExecutedClears(t, count, project, runs, actions);
    TasksStayLinked(t, project, count);
    OwnedStayLinked(t.members, t.projects, project);
    OwnedStayLinked(t.sources, t.projects, project);
    RunsStayLinked(t.runs, t.projects, project);
    ActionsStayLinked(t.actions, t.runs, runs);
    DecisionsStayLinked(t.approvals, t.actions, t.runs, runs);
    DecisionsStayLinked(t.artifacts, t.actions, t.runs, runs);
    RecordsStayLinked(t.documents, t.audits, t.runs, runs);
  }

  predicate SafeThroughout(t: Tables, project: nat) {
    forall count :: 0 <= count <= STATEMENTS ==> ForeignKeys(Deleting(t, project, count))
  }

  /** Every statement leaves every foreign key valid exactly when no task of another project leans on
      a source or a proposal of the deleted one. */
  lemma DeletionIsSafeIff(t: Tables, project: nat)
    requires ForeignKeys(t)
    ensures SafeThroughout(t, project) <==> NotLeanedOn(t, project)
  {
    if NotLeanedOn(t, project) {
      forall count | 0 <= count <= STATEMENTS
        ensures ForeignKeys(Deleting(t, project, count))
      {
        KeysStayValid(t, project, count);
      }
    }
    if SafeThroughout(t, project) {
      LeaningBreaks(t, project);
    }
  }

  lemma LeaningBreaks(t: Tables, project: nat)
    requires ForeignKeys(Deleting(t, project, STATEMENTS))
    ensures NotLeanedOn(t, project)
  {
    var runs := RunsOf(t.runs, project);
    ExecutedClears(t, STATEMENTS, project, runs, ActionsOf(t.actions, runs));
    var after := Deleting(t, project, STATEMENTS);
    forall k | k in t.tasks && t.tasks[k].project != project
      ensures !LeansOn(t, t.tasks[k], project)
    {
      assert k in after.tasks && after.tasks[k] == t.tasks[k];
    }
  }

  /** The rows of one table after a deletion: those outside the project, unchanged. */
  predicate Keeps<R(==)>(before: map<nat, R>, after: map<nat, R>, outside: R -> bool) {
    && (forall k :: k in after ==> k in before && after[k] == before[k])
    && (forall k :: k in before ==> (k in after <==> outside(before[k])))
  }

  /** Deletion removes exactly the rows of the project and leaves every other row as it was. */
  lemma OnlyOwnRowsGo(t: Tables, project: nat)
    ensures var after := Deleting(t, project, STATEMENTS);
      var runs := RunsOf(t.runs, project);
      && after.projects == t.projects - {project}
      && Keeps(t.tasks, after.tasks, (r: Task) => r.project != project)
      && Keeps(t.sources, after.sources, (r: nat) => r != project)
      && Keeps(t.members, after.members, (r: nat) => r != project)
      && Keeps(t.runs, after.runs, (r: RunRow) => r.project != Some(project))
      && Keeps(t.actions, after.actions, (r: ActionRow) => r.run !in runs)
      && Keeps(t.approvals, after.approvals, (r: Decision) => r.run !in runs)
      && Keeps(t.artifacts, after.artifacts, (r: Decision) => r.run !in runs)
      && Keeps(t.documents, after.documents, (r: nat) => r !in runs)
      && Keeps(t.audits, after.audits, (r: Option<nat>) => !AuditOf(r, runs))
      && (forall k :: k in after.executions <==> k in t.executions && !Named(k, runs, ActionsOf(t.actions, runs)))
  {
    var runs := RunsOf(t.runs, project);
    ExecutedClears(t, STATEMENTS, project, runs, ActionsOf(t.actions, runs));
  }
}
