/** The services that change a project's tables in place. */
module ProjectStore {
  import opened Wrappers
  import opened LocalRuntime
  import opened ProjectTables
  import opened ProjectSteps

  class Database {
    var projects: set<nat>
    var members: map<nat, nat>
    var sources: map<nat, nat>
    var runs: map<nat, RunRow>
    var actions: map<nat, ActionRow>
    var approvals: map<nat, Decision>
    var artifacts: map<nat, Decision>
    var documents: map<nat, nat>
    var audits: map<nat, Option<nat>>
    var executions: set<Key>
    var tasks: map<nat, Task>
    var next: nat
    ghost var made: seq<nat>

    function Rows(): Tables
      reads this
    {
      Tables(projects, members, sources, runs, actions, approvals, artifacts, documents, audits, executions, tasks)
    }

    ghost function State(): Store
      reads this
    {
      Store(Rows(), made, next)
    }

    constructor ()
      ensures State() == EMPTY
    {
      projects, executions := {}, {};
      members, sources, documents := map[], map[], map[];
      runs, actions, approvals, artifacts, audits, tasks := map[], map[], map[], map[], map[], map[];
      next, made := 0, [];
    }

    method NewId() returns (id: nat)
      modifies this`next
      ensures id == old(next) && next == id + 1
    {
      id := next;
      next := next + 1;
    }

    /** Adds a source and, for each task found in it, a run that waits for a decision on that task. */
    method Capture(project: nat, proposals: nat)
      modifies this
      ensures State() == Captured(old(State()), project, proposals)
    {
      if project !in projects {
        return;
      }
      ghost var before := State();
      var source := NewId();
      sources := sources[source := project];
      for k := 0 to proposals
        invariant State() == WithProposals(WithSource(before, project), project, source, k)
      {
        Propose(project, source);
      }
    }

    /** A run with one action that proposes a task, and the request to approve it. */
    method Propose(project: nat, source: nat)
      modifies this
      ensures State() == WithProposal(old(State()), project, source)
    {
      var run, action, approval, audit := next, next + 1, next + 2, next + 3;
      next := next + 4;
      runs := runs[run := RunRow(Some(project), Deciding)];
      actions := actions[action := ActionRow(run, Some(TaskOrigin(source, project)))];
      approvals := approvals[approval := Decision(action, run)];
      audits := audits[audit := Some(run)];
    }

    /** First half of an execution: claims an accepted proposal, unless it has its task. */
    method Take(action: nat) returns (duplicate: bool)
      modifies this
      ensures State() == Taken(old(State()), action)
      ensures duplicate <==> HasTask(old(Rows()), action)
    {
      duplicate := exists k :: k in tasks && tasks[k].proposal == Some(action);
      if !duplicate && Proposes(Rows(), action, Released) {
        var run := actions[action].run;
        runs := runs[run := runs[run].(state := Claimed)];
      }
    }

    /** Second half: the task, in the project and from the source that were approved. */
    method Make(action: nat, succeeded: bool)
      modifies this
      ensures State() == Made(old(State()), action, succeeded)
    {
      if !Proposes(Rows(), action, Claimed) {
        return;
      }
      if !succeeded {
        Record(action, Stopped);
      } else if OriginHolds(Rows(), actions[action].origin.value) {
        AddTask(actions[action].origin.value, action);
        Record(action, Finished);
        made := made + [action];
      }
    }

    /** Records the execution of an action and the state its run ends in. */
    method Record(action: nat, state: RunState)
      requires action in actions && actions[action].run in runs
      modifies this`executions, this`runs
      ensures executions == old(executions) + {TaskKey(action)}
      ensures runs == old(runs)[actions[action].run := old(runs)[actions[action].run].(state := state)]
    {
      executions := executions + {TaskKey(action)};
      runs := runs[actions[action].run := runs[actions[action].run].(state := state)];
    }

    method AddTask(origin: TaskOrigin, action: nat)
      modifies this`tasks, this`next
      ensures State() == WithTask(old(State()), Task(origin.project, Some(origin.source), Some(action)))
    {
      var task := NewId();
      tasks := tasks[task := Task(origin.project, Some(origin.source), Some(action))];
    }

    /** Deletes the rows of the tables that hang on the runs. */
    method DeleteRunRows(runIds: set<nat>, actionIds: set<nat>)
      requires actionIds == ActionsOf(actions, runIds)
      modifies this
      ensures Rows() == RunRowsCleared(old(Rows()), runIds, actionIds)
      ensures made == old(made) && next == old(next)
    {
      if runIds != {} {
        approvals := DecisionsOutside(approvals, runIds);
        artifacts := DecisionsOutside(artifacts, runIds);
        actions := ActionsOutside(actions, runIds);
        documents := DocumentsOutside(documents, runIds);
        audits := AuditsOutside(audits, runIds);
        executions := ExecutionsOutside(executions, runIds, actionIds);
        runs := RunsOutside(runs, runIds);
      } else {
        NothingNamed(Rows(), actionIds);
      }
    }

    /** Deletes the project and everything that hangs on it, table by table. */
    method Delete(project: nat)
      modifies this
      ensures State() == Deleted(old(State()), project)
    {
      if project !in projects {
        return;
      }
      ghost var t := Rows();
      var runIds := RunsOf(runs, project);
      var actionIds := ActionsOf(actions, runIds);
      tasks := TasksOutside(tasks, project);
      DeleteRunRows(runIds, actionIds);
      DeleteOwnRows(project);
      DeletedTables(t, project);
      NoteDeletion();
    }

    /** Deletes the project's sources and members, then the project. */
    method DeleteOwnRows(project: nat)
      modifies this`sources, this`members, this`projects
      ensures Rows() == old(Rows()).(sources := OwnedOutside(old(sources), project),
                                     members := OwnedOutside(old(members), project),
                                     projects := old(projects) - {project})
    {
      sources := OwnedOutside(sources, project);
      members := OwnedOutside(members, project);
      projects := projects - {project};
    }

    method NoteDeletion()
      modifies this`audits, this`next
      ensures audits == old(audits)[old(next) := None] && next == old(next) + 1
    {
      audits := audits[next := None];
      next := next + 1;
    }
  }

  function RunRowsCleared(t: Tables, runs: set<nat>, actions: set<nat>): Tables {
    t.(approvals := DecisionsOutside(t.approvals, runs),
       artifacts := DecisionsOutside(t.artifacts, runs),
       actions := ActionsOutside(t.actions, runs),
       documents := DocumentsOutside(t.documents, runs),
       audits := AuditsOutside(t.audits, runs),
       executions := ExecutionsOutside(t.executions, runs, actions),
       runs := RunsOutside(t.runs, runs))
  }

  lemma DeletedTables(t: Tables, project: nat)
    ensures var runs := RunsOf(t.runs, project);
      Deleting(t, project, STATEMENTS)
      == RunRowsCleared(t, runs, ActionsOf(t.actions, runs)).(
           tasks := TasksOutside(t.tasks, project),
           sources := OwnedOutside(t.sources, project),
           members := OwnedOutside(t.members, project),
           projects := t.projects - {project})
  {
    var runs := RunsOf(t.runs, project);
    ExecutedClears(t, STATEMENTS, project, runs, ActionsOf(t.actions, runs));
  }

  /** Without runs there is nothing to delete in the tables that hang on runs. */
  lemma NothingNamed(t: Tables, actions: set<nat>)
    requires actions == ActionsOf(t.actions, {})
    ensures DecisionsOutside(t.approvals, {}) == t.approvals && DecisionsOutside(t.artifacts, {}) == t.artifacts
    ensures ActionsOutside(t.actions, {}) == t.actions && DocumentsOutside(t.documents, {}) == t.documents
    ensures AuditsOutside(t.audits, {}) == t.audits && RunsOutside(t.runs, {}) == t.runs
    ensures ExecutionsOutside(t.executions, {}, actions) == t.executions
  {
    assert actions == {};
  }
}
