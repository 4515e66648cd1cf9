/** What a first submission under a key makes of the runtime, for every operation. */
module RuntimeOutcomes {
  import opened Wrappers
  import opened Payloads
  import opened LocalRuntime

  // ----- Study plans

  /** The reports are in the order of the blocks. */
  predicate InPlanOrder(created: seq<CreatedBlock>, failed: seq<FailedBlock>) {
    && (forall i, j :: 0 <= i < j < |created| ==> created[i].index < created[j].index)
    && (forall i, j :: 0 <= i < j < |failed| ==> failed[i].index < failed[j].index)
  }

  /** Each block of the plan is reported under its own index and task, with what its call returned. */
  predicate ReportsPlan(blocks: seq<BlockEvent>, reply: nat -> Reply, created: seq<CreatedBlock>,
                        failed: seq<FailedBlock>)
  {
    && |created| + |failed| == |blocks|
    && (forall c :: c in created ==>
          c.index < |blocks| && c.taskId == blocks[c.index].taskId && reply(c.index) == Created(c.external))
    && (forall f :: f in failed ==>
          f.index < |blocks| && f.taskId == blocks[f.index].taskId && reply(f.index) == Raised(f.code))
  }

  lemma {:induction false} PlanReported(blocks: seq<BlockEvent>, reply: nat -> Reply)
    ensures ReportsPlan(blocks, reply, CreatedBlocks(blocks, reply), FailedBlocks(blocks, reply))
    ensures InPlanOrder(CreatedBlocks(blocks, reply), FailedBlocks(blocks, reply))
  {
    if blocks != [] {
      var last := |blocks| - 1;
      var created, failed := CreatedBlocks(blocks[..last], reply), FailedBlocks(blocks[..last], reply);
      PlanReported(blocks[..last], reply);
      forall i | 0 <= i < |created|
        ensures created[i].index < last
      {
        assert created[i] in created;
      }
      forall i | 0 <= i < |failed|
        ensures failed[i].index < last
      {
        assert failed[i] in failed;
      }
    }
  }

  /** The first of the blocks whose call failed. */
  predicate FirstRaised(blocks: seq<BlockEvent>, reply: nat -> Reply, k: nat) {
    k < |blocks| && reply(k).Raised? && forall i :: 0 <= i < k ==> reply(i).Created?
  }

  /** What a study plan leaves behind: it has succeeded when no block failed, is partial when some failed
      and some were created, and otherwise has failed; its code is that of the first block that failed. */
  ghost predicate PlanFollows(snapshot: Snapshot, blocks: seq<BlockEvent>, reply: nat -> Reply) {
    && snapshot.result.Some? && snapshot.result.value.Blocks?
    && ReportsPlan(blocks, reply, snapshot.result.value.created, snapshot.result.value.failed)
    && InPlanOrder(snapshot.result.value.created, snapshot.result.value.failed)
    && snapshot.status == (if !SomeRaised(blocks, reply) then Succeeded
                           else if SomeCreated(blocks, reply) then Partial else RunFailed)
    && (snapshot.code.Some? <==> SomeRaised(blocks, reply))
    && (forall k: nat :: FirstRaised(blocks, reply, k) ==> snapshot.code == Some(reply(k).code))
  }

  lemma {:induction false} FirstFailure(blocks: seq<BlockEvent>, reply: nat -> Reply)
    ensures FailedBlocks(blocks, reply) != [] <==> SomeRaised(blocks, reply)
    ensures forall k: nat :: FirstRaised(blocks, reply, k) ==>
              FailedBlocks(blocks, reply) != [] && FailedBlocks(blocks, reply)[0].code == reply(k).code
  {
    if blocks != [] {
      var last := |blocks| - 1;
      FirstFailure(blocks[..last], reply);
      forall k: nat | FirstRaised(blocks, reply, k)
        ensures FailedBlocks(blocks, reply) != [] && FailedBlocks(blocks, reply)[0].code == reply(k).code
      {
        if k < last {
          assert FirstRaised(blocks[..last], reply, k);
        } else {
          assert !SomeRaised(blocks[..last], reply);
        }
      }
      if SomeRaised(blocks, reply) && !reply(last).Raised? {
        var k :| 0 <= k < |blocks| && reply(k).Raised?;
        assert 0 <= k < |blocks[..last]| && reply(k).Raised?;
      }
    }
  }

  lemma PlanSnapshotFollows(id: nat, blocks: seq<BlockEvent>, reply: nat -> Reply)
    ensures PlanFollows(PlanSnapshot(id, blocks, reply), blocks, reply)
  {
    PlanReported(blocks, reply);
    PlanStatus(id, blocks, reply);
    FirstFailure(blocks, reply);
  }

  // ----- Every operation

  /** The operations that call a provider once. */
  predicate CallsOnce(operation: Operation) {
    || operation == CreateNotionStudyPage || operation == CreateNotionTask || operation == PublishNotionProject
    || operation == CreateGithubIssue || operation == RequestPullRequestReview
  }

  /** What is recorded of a request and which calls are made for it. */
  ghost predicate ExecutionFollows(request: Request, id: nat, outside: Outside, snapshot: Snapshot, made: seq<Call>) {
    && snapshot.id == id
    && if !outside.ready || request.operation.UnknownOperation? then
         made == [] && snapshot == Snapshot(id, RunFailed, None, Some("EXECUTION_FAILED"))
       else if request.operation == CreateRelayTask then
         made == [] && snapshot == Snapshot(id, Succeeded, Some(Accepted), None)
       else if CallsOnce(request.operation) then
         && made == [Call(request.key, None, request.payload)]
         && match outside.reply(0)
            case Created(external) => snapshot == Snapshot(id, Succeeded, Some(Single(external)), None)
            case Raised(code) => snapshot == Snapshot(id, RunFailed, None, Some(code))
       else
         var blocks := if request.payload.content.StudyPlan? then request.payload.content.blocks else [];
         && |made| == |blocks|
         && (forall k :: 0 <= k < |made| ==> made[k] == Call(request.key, Some(k), request.payload))
         && PlanFollows(snapshot, blocks, outside.reply)
  }

  /** A first submission under a key: the runtime records the request with its outcome and makes
      exactly the calls of its operation; nothing else changes. */
  lemma FirstSubmission(runtime: Runtime, request: Request, id: nat, outside: Outside)
    requires request.key !in runtime.executions
    ensures var after := Submitted(runtime, request, id, outside);
      && request.key in after.executions
      && Answer(runtime, request, id, outside) == Ok(after.executions[request.key].snapshot)
      && after.executions == runtime.executions[request.key := after.executions[request.key]]
      && after.executions[request.key].operation == request.operation
      && after.executions[request.key].payload == request.payload
      && runtime.calls <= after.calls
      && ExecutionFollows(request, id, outside, after.executions[request.key].snapshot,
                          after.calls[|runtime.calls|..])
  {
    PlanSnapshotFollows(id, BlocksOf(request.payload), outside.reply);
    var after := Submitted(runtime, request, id, outside);
    assert after.calls[|runtime.calls|..] == CallsMade(request, outside);
  }
}
