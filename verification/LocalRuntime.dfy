/** The execution runtime: one record per idempotency key, and the connector calls it makes. */
module LocalRuntime {
  import opened Wrappers
  import opened WorkflowStates
  import opened Payloads

  /** Idempotency keys, by who builds them. */
  datatype Key =
    | LearnKey(run: nat, approval: nat)
    | PlanKey(run: nat, approval: nat)
    | CollaborateKey(run: nat, action: nat)
    | TaskKey(action: nat)
    | OtherKey(name: string)

  datatype Request = Request(operation: Operation, payload: Payload, key: Key)

  datatype ExecutionStatus = RunQueued | Running | Succeeded | Partial | RunFailed | RunCancelled

  type Code = c: string | c != [] witness "EXECUTION_FAILED"

  const EXECUTION_FAILED: Code := "EXECUTION_FAILED"

  datatype CreatedBlock = CreatedBlock(index: nat, taskId: string, external: string)
  datatype FailedBlock = FailedBlock(index: nat, taskId: string, code: Code)

  datatype ExecutionResult =
    | Single(external: string)
    | Blocks(created: seq<CreatedBlock>, failed: seq<FailedBlock>)
    | Accepted

  datatype Snapshot = Snapshot(id: nat, status: ExecutionStatus, result: Option<ExecutionResult>, code: Option<Code>)

  /** One call to a provider; a study plan makes one for each block, under its own index. */
  datatype Call = Call(key: Key, index: Option<nat>, payload: Payload)

  datatype Reply = Created(external: string) | Raised(code: Code)

  /** What the world outside answers during one submission: whether the payload passes the
      operation's own validation with a connector present, and the reply to the n-th call. */
  datatype Outside = Outside(ready: bool, reply: nat -> Reply)

  datatype Execution = Execution(operation: Operation, payload: Payload, snapshot: Snapshot)

  datatype Runtime = Runtime(executions: map<Key, Execution>, calls: seq<Call>)

  predicate SingleCall(operation: Operation) {
    operation in {CreateNotionStudyPage, CreateNotionTask, PublishNotionProject, CreateGithubIssue,
                  RequestPullRequestReview}
  }

  function BlocksOf(payload: Payload): seq<BlockEvent> {
    if payload.content.StudyPlan? then payload.content.blocks else []
  }

  // ----- The blocks of a study plan

  function CreatedBlocks(blocks: seq<BlockEvent>, reply: nat -> Reply): seq<CreatedBlock> {
    if blocks == [] then []
    else
      var last := |blocks| - 1;
      CreatedBlocks(blocks[..last], reply)
      + if reply(last).Created? then [CreatedBlock(last, blocks[last].taskId, reply(last).external)] else []
  }

  function FailedBlocks(blocks: seq<BlockEvent>, reply: nat -> Reply): seq<FailedBlock> {
    if blocks == [] then []
    else
      var last := |blocks| - 1;
      FailedBlocks(blocks[..last], reply)
      + if reply(last).Raised? then [FailedBlock(last, blocks[last].taskId, reply(last).code)] else []
  }

  function BlockCalls(request: Request, count: nat): seq<Call> {
    seq(count, k requires 0 <= k < count => Call(request.key, Some(k), request.payload))
  }

  function PlanSnapshot(id: nat, blocks: seq<BlockEvent>, reply: nat -> Reply): Snapshot {
    var created, failed := CreatedBlocks(blocks, reply), FailedBlocks(blocks, reply);
    Snapshot(id,
             if failed == [] then Succeeded else if created != [] then Partial else RunFailed,
             Some(Blocks(created, failed)),
             if failed == [] then None else Some(failed[0].code))
  }

  /** The outcome of a request under a new key. */
  function Executed(request: Request, id: nat, outside: Outside): Snapshot {
    if request.operation == CreateRelayTask && outside.ready then Snapshot(id, Succeeded, Some(Accepted), None)
    else if !outside.ready || !(SingleCall(request.operation) || request.operation == CreateCalendarStudyPlan) then
      Snapshot(id, RunFailed, None, Some(EXECUTION_FAILED))
    else if request.operation == CreateCalendarStudyPlan then PlanSnapshot(id, BlocksOf(request.payload), outside.reply)
    else if outside.reply(0).Created? then Snapshot(id, Succeeded, Some(Single(outside.reply(0).external)), None)
    else Snapshot(id, RunFailed, None, Some(outside.reply(0).code))
  }

  function CallsMade(request: Request, outside: Outside): seq<Call> {
    if !outside.ready then []
    else if request.operation == CreateCalendarStudyPlan then BlockCalls(request, |BlocksOf(request.payload)|)
    else if SingleCall(request.operation) then [Call(request.key, None, request.payload)]
    else []
  }

  /** A known key answers from its record; a new one is executed and recorded. */
  function Submitted(runtime: Runtime, request: Request, id: nat, outside: Outside): Runtime {
    if request.key in runtime.executions then runtime
    else Runtime(
           runtime.executions[request.key := Execution(request.operation, request.payload,
                                                       Executed(request, id, outside))],
           runtime.calls + CallsMade(request, outside))
  }

  function Answer(runtime: Runtime, request: Request, id: nat, outside: Outside): Result<Snapshot, Error> {
    if request.key !in runtime.executions then Ok(Executed(request, id, outside))
    else
      var existing := runtime.executions[request.key];
      if existing.payload != request.payload || existing.operation != request.operation
      then Err(ApprovalPayloadMismatch)
      else Ok(existing.snapshot)
  }

  class LocalRuntimeClient {
    var executions: map<Key, Execution>
    var calls: seq<Call>

    function State(): Runtime
      reads this
    {
      Runtime(executions, calls)
    }

    constructor ()
      ensures State() == Runtime(map[], [])
    {
      executions := map[];
      calls := [];
    }

    method SubmitExecution(request: Request, id: nat, outside: Outside) returns (answer: Result<Snapshot, Error>)
      modifies this
      ensures answer == Answer(old(State()), request, id, outside)
      ensures State() == Submitted(old(State()), request, id, outside)
    {
      if request.key in executions {
        var existing := executions[request.key];
        if existing.payload != request.payload || existing.operation != request.operation {
          return Err(ApprovalPayloadMismatch);
        }
        return Ok(existing.snapshot);
      }
      var snapshot := Snapshot(id, Running, None, None);
      if !outside.ready {
        snapshot := snapshot.(status := RunFailed, code := Some(EXECUTION_FAILED));
      } else if request.operation == CreateRelayTask {
        snapshot := snapshot.(status := Succeeded, result := Some(Accepted));
      } else if request.operation == CreateCalendarStudyPlan {
        snapshot := RunPlan(request, id, outside.reply);
      } else if SingleCall(request.operation) {
        calls := calls + [Call(request.key, None, request.payload)];
        match outside.reply(0)
        case Created(external) =>
          snapshot := snapshot.(status := Succeeded, result := Some(Single(external)));
        case Raised(code) =>
          snapshot := snapshot.(status := RunFailed, code := Some(code));
      } else {
        snapshot := snapshot.(status := RunFailed, code := Some(EXECUTION_FAILED));
      }
      executions := executions[request.key := Execution(request.operation, request.payload, snapshot)];
      return Ok(snapshot);
    }

    /** Creates each block of a plan by itself: a block that fails neither undoes the blocks before
        it nor keeps the later ones from being tried. */
    method RunPlan(request: Request, id: nat, reply: nat -> Reply) returns (snapshot: Snapshot)
      modifies this`calls
      ensures snapshot == PlanSnapshot(id, BlocksOf(request.payload), reply)
      ensures calls == old(calls) + BlockCalls(request, |BlocksOf(request.payload)|)
    {
      var blocks := BlocksOf(request.payload);
      var created: seq<CreatedBlock> := [];
      var failed: seq<FailedBlock> := [];
      var firstCode: Option<Code> := None;
      for k := 0 to |blocks|
        invariant created == CreatedBlocks(blocks[..k], reply) && failed == FailedBlocks(blocks[..k], reply)
        invariant firstCode == if failed == [] then None else Some(failed[0].code)
        invariant calls == old(calls) + BlockCalls(request, k)
      {
        assert blocks[..k + 1][..k] == blocks[..k];
        calls := calls + [Call(request.key, Some(k), request.payload)];
        match reply(k)
        case Created(external) =>
          created := created + [CreatedBlock(k, blocks[k].taskId, external)];
        case Raised(code) =>
          firstCode := if firstCode.Some? then firstCode else Some(code);
          failed := failed + [FailedBlock(k, blocks[k].taskId, code)];
      }
      assert blocks[..|blocks|] == blocks;
      snapshot := Snapshot(id, Running, Some(Blocks(created, failed)), firstCode);
      if failed == [] {
        snapshot := snapshot.(status := Succeeded);
      } else if created != [] {
        snapshot := snapshot.(status := Partial);
      } else {
        snapshot := snapshot.(status := RunFailed);
      }
    }
  }

  // ----- Blocks: each is reported once

  predicate ReportedCreated(created: seq<CreatedBlock>, k: nat) {
    exists c :: c in created && c.index == k
  }

  predicate ReportedFailed(failed: seq<FailedBlock>, k: nat) {
    exists f :: f in failed && f.index == k
  }

  /** Every block of the plan is reported exactly once, as created or as failed, as its own call
      was answered. */
  lemma {:induction false} BlocksReportedOnce(blocks: seq<BlockEvent>, reply: nat -> Reply)
    ensures forall k: nat ::
              (ReportedCreated(CreatedBlocks(blocks, reply), k) <==> k < |blocks| && reply(k).Created?)
              && (ReportedFailed(FailedBlocks(blocks, reply), k) <==> k < |blocks| && reply(k).Raised?)
    ensures |CreatedBlocks(blocks, reply)| + |FailedBlocks(blocks, reply)| == |blocks|
  {
    if blocks != [] {
      var last := |blocks| - 1;
      BlocksReportedOnce(blocks[..last], reply);
      var created, failed := CreatedBlocks(blocks[..last], reply), FailedBlocks(blocks[..last], reply);
      forall k: nat
        ensures ReportedCreated(CreatedBlocks(blocks, reply), k) <==> k < |blocks| && reply(k).Created?
        ensures ReportedFailed(FailedBlocks(blocks, reply), k) <==> k < |blocks| && reply(k).Raised?
      {
        if reply(last).Created? {
          AddCreated(created, CreatedBlock(last, blocks[last].taskId, reply(last).external), k);
        } else {
          AddFailed(failed, FailedBlock(last, blocks[last].taskId, reply(last).code), k);
        }
      }
    }
  }

  lemma AddCreated(created: seq<CreatedBlock>, block: CreatedBlock, k: nat)
    ensures ReportedCreated(created + [block], k) <==> ReportedCreated(created, k) || block.index == k
  {
    assert block in created + [block];
    assert forall c :: c in created ==> c in created + [block];
  }

  lemma AddFailed(failed: seq<FailedBlock>, block: FailedBlock, k: nat)
    ensures ReportedFailed(failed + [block], k) <==> ReportedFailed(failed, k) || block.index == k
  {
    assert block in failed + [block];
    assert forall f :: f in failed ==> f in failed + [block];
  }

  /** A plan succeeds when no block failed, fails when some failed and none was created, and is
      partial when some failed and some were created. */
  lemma PlanStatus(id: nat, blocks: seq<BlockEvent>, reply: nat -> Reply)
    ensures var status := PlanSnapshot(id, blocks, reply).status;
      && (status == Succeeded <==> !SomeRaised(blocks, reply))
      && (status == RunFailed <==> SomeRaised(blocks, reply) && !SomeCreated(blocks, reply))
      && (status == Partial <==> SomeRaised(blocks, reply) && SomeCreated(blocks, reply))
  {
    BlocksReportedOnce(blocks, reply);
    var created, failed := CreatedBlocks(blocks, reply), FailedBlocks(blocks, reply);
    if created != [] {
      assert ReportedCreated(created, created[0].index);
    }
    if failed != [] {
      assert ReportedFailed(failed, failed[0].index);
    }
    if k :| 0 <= k < |blocks| && reply(k).Created? {
      assert ReportedCreated(created, k);
    }
    if k :| 0 <= k < |blocks| && reply(k).Raised? {
      assert ReportedFailed(failed, k);
    }
  }

  predicate SomeCreated(blocks: seq<BlockEvent>, reply: nat -> Reply) {
    exists k :: 0 <= k < |blocks| && reply(k).Created?
  }

  predicate SomeRaised(blocks: seq<BlockEvent>, reply: nat -> Reply) {
    exists k :: 0 <= k < |blocks| && reply(k).Raised?
  }

  // ----- Keys: each is executed once

  predicate NoRepeats(calls: seq<Call>) {
    forall i, j :: 0 <= i < j < |calls| ==> (calls[i].key, calls[i].index) != (calls[j].key, calls[j].index)
  }

  predicate SucceededAlone(execution: Execution) {
    SingleCall(execution.operation) && execution.snapshot.status == Succeeded
  }

  predicate Called(calls: seq<Call>, key: Key) {
    exists c :: c in calls && c.key == key
  }

  /** What a single call leaves behind: the provider's result, or a failure. */
  predicate SingleOutcome(snapshot: Snapshot) {
    && snapshot.status in {Succeeded, RunFailed}
    && (snapshot.status == Succeeded ==> snapshot.result.Some? && snapshot.result.value.Single?)
  }

  /** No call is repeated; every call belongs to a recorded execution and carries its payload; a
      single call that succeeded was made. */
  predicate Sound(runtime: Runtime) {
    && NoRepeats(runtime.calls)
    && (forall k :: k in runtime.executions && SucceededAlone(runtime.executions[k]) ==> Called(runtime.calls, k))
    && (forall k :: k in runtime.executions && SingleCall(runtime.executions[k].operation)
          ==> SingleOutcome(runtime.executions[k].snapshot))
    && (forall c :: c in runtime.calls
         ==> c.key in runtime.executions && c.payload == runtime.executions[c.key].payload)
    && (forall c :: c in runtime.calls && !(runtime.executions[c.key].operation == CreateCalendarStudyPlan)
         ==> c.index == None)
  }

  lemma SubmitKeepsSound(runtime: Runtime, request: Request, id: nat, outside: Outside)
    requires Sound(runtime)
    ensures Sound(Submitted(runtime, request, id, outside))
  {
    if request.key !in runtime.executions {
      var made := CallsMade(request, outside);
      var calls := runtime.calls + made;
      forall k | Called(runtime.calls, k)
        ensures Called(calls, k)
      {
        var c :| c in runtime.calls && c.key == k;
        assert c in calls;
      }
      if made != [] {
        assert made[0] in calls && made[0].key == request.key;
      }
      forall c | c in calls
        ensures c in runtime.calls || (c in made && c.key == request.key && c.payload == request.payload)
      {
      }
      forall i, j | 0 <= i < j < |calls|
        ensures (calls[i].key, calls[i].index) != (calls[j].key, calls[j].index)
      {
        assert i < |runtime.calls| ==> calls[i] in runtime.calls;
        assert j >= |runtime.calls| ==> calls[j] in made;
      }
    }
  }

  datatype Submission = Submission(request: Request, id: nat, outside: Outside)

  function SubmittedOnto(runtime: Runtime, submissions: seq<Submission>): Runtime {
    if submissions == [] then runtime
    else
      var last := submissions[|submissions| - 1];
      Submitted(SubmittedOnto(runtime, submissions[..|submissions| - 1]), last.request, last.id, last.outside)
  }

  const FRESH := Runtime(map[], [])

  /** Over any sequence of submissions, no idempotency key makes the same call twice; outside study
      plans that is one call a key. */
  lemma {:induction false} OneCallPerKey(submissions: seq<Submission>)
    ensures Sound(SubmittedOnto(FRESH, submissions))
    ensures forall i, j ::
              0 <= i < j < |SubmittedOnto(FRESH, submissions).calls|
              && SubmittedOnto(FRESH, submissions).calls[i].key == SubmittedOnto(FRESH, submissions).calls[j].key ==>
                SubmittedOnto(FRESH, submissions).executions[SubmittedOnto(FRESH, submissions).calls[i].key].operation
                  == CreateCalendarStudyPlan
  {
    if submissions != [] {
      var last := submissions[|submissions| - 1];
      OneCallPerKey(submissions[..|submissions| - 1]);
      SubmitKeepsSound(SubmittedOnto(FRESH, submissions[..|submissions| - 1]), last.request, last.id, last.outside);
    }
    SoundMeansOneCall(SubmittedOnto(FRESH, submissions));
  }

  lemma SoundMeansOneCall(runtime: Runtime)
    requires Sound(runtime)
    ensures forall i, j ::
              0 <= i < j < |runtime.calls| && runtime.calls[i].key == runtime.calls[j].key ==>
                runtime.executions[runtime.calls[i].key].operation == CreateCalendarStudyPlan
  {
    forall i, j | 0 <= i < j < |runtime.calls| && runtime.calls[i].key == runtime.calls[j].key
      ensures runtime.executions[runtime.calls[i].key].operation == CreateCalendarStudyPlan
    {
      assert runtime.calls[i] in runtime.calls && runtime.calls[j] in runtime.calls;
    }
  }

  /** Sending a request again, whatever has been submitted in between and whatever the world would
      answer now, gives the first snapshot and changes nothing; another payload or operation under
      the same key is refused. */
  lemma {:induction false} ResubmissionReplays(runtime: Runtime, request: Request, id: nat, outside: Outside,
                                               between: seq<Submission>, again: Request, newId: nat, now: Outside)
    requires request.key !in runtime.executions && again.key == request.key
    ensures var later := SubmittedOnto(Submitted(runtime, request, id, outside), between);
      && Submitted(later, again, newId, now) == later
      && Answer(later, again, newId, now)
         == if again == request then Ok(Executed(request, id, outside)) else Err(ApprovalPayloadMismatch)
  {
    SubmissionsKeepRecords(Submitted(runtime, request, id, outside), between, request.key);
  }

  lemma {:induction false} SubmissionsKeepRecords(runtime: Runtime, submissions: seq<Submission>, key: Key)
    requires key in runtime.executions
    ensures var later := SubmittedOnto(runtime, submissions);
      key in later.executions && later.executions[key] == runtime.executions[key]
  {
    if submissions != [] {
      SubmissionsKeepRecords(runtime, submissions[..|submissions| - 1], key);
    }
  }

  // ----- Records lost with their transaction

  /** A submission and whether the caller's transaction committed: a rollback loses the record, but
      not the calls made for it. */
  datatype Attempt = Attempt(submission: Submission, committed: bool)

  function Attempted(runtime: Runtime, attempt: Attempt): Runtime {
    var after := Submitted(runtime, attempt.submission.request, attempt.submission.id, attempt.submission.outside);
    if attempt.committed then after else Runtime(runtime.executions, after.calls)
  }

  function AttemptedAll(attempts: seq<Attempt>): Runtime {
    if attempts == [] then FRESH else Attempted(AttemptedAll(attempts[..|attempts| - 1]), attempts[|attempts| - 1])
  }

  /** No attempt that made a call was rolled back. */
  predicate CallsCommitted(attempts: seq<Attempt>) {
    attempts != [] ==>
      var last := attempts[|attempts| - 1];
      && CallsCommitted(attempts[..|attempts| - 1])
      && (last.committed || Attempted(AttemptedAll(attempts[..|attempts| - 1]), last).calls
                            == AttemptedAll(attempts[..|attempts| - 1]).calls)
  }

  /** Rollbacks repeat a call only when one of them lost the record of a call already made. */
  lemma {:induction false} OnlyLostCallsRepeat(attempts: seq<Attempt>)
    requires CallsCommitted(attempts)
    ensures Sound(AttemptedAll(attempts))
  {
    if attempts != [] {
      var before, last := AttemptedAll(attempts[..|attempts| - 1]), attempts[|attempts| - 1];
      OnlyLostCallsRepeat(attempts[..|attempts| - 1]);
      SubmitKeepsSound(before, last.submission.request, last.submission.id, last.submission.outside);
    }
  }

  /** After the record of a single call is lost, the same request calls again exactly when the payload
      was, and still is, fit to be sent. */
  lemma LostRecordRepeatsIff(runtime: Runtime, request: Request, id: nat, first: Outside, newId: nat, again: Outside)
    requires Sound(runtime) && request.key !in runtime.executions && SingleCall(request.operation)
    ensures var lost := Attempted(runtime, Attempt(Submission(request, id, first), false));
      NoRepeats(Submitted(lost, request, newId, again).calls) <==> !(first.ready && again.ready)
  {
    var call := Call(request.key, None, request.payload);
    var lost := Attempted(runtime, Attempt(Submission(request, id, first), false));
    var after := Submitted(lost, request, newId, again);
    SubmitKeepsSound(runtime, request, id, first);
    SubmitKeepsSound(runtime, request, newId, again);
    if first.ready && again.ready {
      var n := |runtime.calls|;
      assert after.calls == (runtime.calls + [call]) + [call];
      assert after.calls[n] == call && after.calls[n + 1] == call;
    } else if first.ready {
      assert after.calls == Submitted(runtime, request, id, first).calls;
    } else {
      assert lost == runtime;
    }
  }
}
