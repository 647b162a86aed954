/** The batch orchestrator of services/geminiService.ts: split the tasks to
    analyse into batches of ten, send one request per batch to the AI
    provider, and concatenate the recommendations of all replies in batch
    order, failing as a unit. The provider is a function parameter: it maps
    one request payload to the reply the call produced. */
module GeminiService {
  import opened Wrappers
  import opened Types
  import opened Seqs

  const BATCH_SIZE: nat := 10

  /** The one message every failure of the orchestration is reported with. */
  const FailureMessage: string := "Failed to get AI assignment suggestions."

  /** An associate as embedded in the prompt. */
  datatype AssociatePayload = AssociatePayload(id: string, name: string, skills: seq<string>, currentWorkload: nat)

  /** A task as embedded in the prompt; the description is left out on purpose. */
  datatype TaskPayload = TaskPayload(
    id: string, title: string, priority: TaskPriority, complexity: int,
    businessImpact: int, dependencies: seq<string>, moduleName: string)

  /** The structured part of one batch's prompt (the prose around it is not modelled). */
  datatype BatchRequest = BatchRequest(associates: seq<AssociatePayload>, tasks: seq<TaskPayload>)

  /** What one batch's call yields: the call failed, its text is not JSON, or
      the parsed object, whose `recommendations` field may be absent. */
  datatype Reply = CallFailed | Malformed | Parsed(recommendations: Option<seq<Recommendation>>)

  function Min(a: nat, b: nat): nat { if a <= b then a else b }

  function ProjectAssociate(a: ProcessedAssociate): AssociatePayload
  {
    AssociatePayload(a.id, a.name, a.skills, a.currentWorkload.total)
  }

  function ProjectTask(t: Task): TaskPayload
  {
    TaskPayload(t.id, t.title, t.priority, t.complexity, t.businessImpact, t.dependencies, t.moduleName)
  }

  /** Two associates give the same payload exactly when they agree on id, name,
      skills and total workload: nothing else of the associate is sent. */
  lemma AssociateProjectionExact(a: ProcessedAssociate, b: ProcessedAssociate)
    ensures ProjectAssociate(a) == ProjectAssociate(b) <==>
      a.id == b.id && a.name == b.name && a.skills == b.skills &&
      a.currentWorkload.total == b.currentWorkload.total
  {
  }

  /** Two tasks give the same payload exactly when they agree on the seven
      projected fields: the description, the source, the status, the
      assignee and the AI fields never reach the provider. */
  lemma TaskProjectionExact(a: Task, b: Task)
    ensures ProjectTask(a) == ProjectTask(b) <==>
      a.id == b.id && a.title == b.title && a.priority == b.priority &&
      a.complexity == b.complexity && a.businessImpact == b.businessImpact &&
      a.dependencies == b.dependencies && a.moduleName == b.moduleName
  {
  }

  /** The payload of one batch: the whole roster, then the batch's tasks. */
  function BuildRequest(batch: seq<Task>, associates: seq<ProcessedAssociate>): (r: BatchRequest)
    ensures |r.associates| == |associates| && |r.tasks| == |batch|
    ensures forall i :: 0 <= i < |batch| ==> r.tasks[i].id == batch[i].id
    ensures forall i :: 0 <= i < |batch| ==> r.tasks[i] == ProjectTask(batch[i])
    ensures forall i :: 0 <= i < |associates| ==> r.associates[i] == ProjectAssociate(associates[i])
  {
    BatchRequest(
      seq(|associates|, i requires 0 <= i < |associates| => ProjectAssociate(associates[i])),
      seq(|batch|, i requires 0 <= i < |batch| => ProjectTask(batch[i])))
  }

  // ---------------------------------------------------------------------------
  // Partitioning

  /** The batches `tasks.slice(i, i + BATCH_SIZE)` for i = 0, 10, 20, ... */
  function Chunks<T>(s: seq<T>): seq<seq<T>>
    decreases |s|
  {
    if |s| == 0 then []
    else
      var k := Min(|s|, BATCH_SIZE);
      [s[..k]] + Chunks(s[k..])
  }

  /** n tasks make ceil(n / 10) batches. */
  lemma {:induction false} ChunksCount<T>(s: seq<T>)
    ensures |Chunks(s)| == (|s| + BATCH_SIZE - 1) / BATCH_SIZE
    decreases |s|
  {
    if |s| > 0 {
      ChunksCount(s[Min(|s|, BATCH_SIZE)..]);
    }
  }

  /** Every batch holds one to ten tasks, and all but the last hold exactly ten. */
  lemma {:induction false} ChunksShape<T>(s: seq<T>)
    ensures forall i :: 0 <= i < |Chunks(s)| ==>
      0 < |Chunks(s)[i]| <= BATCH_SIZE &&
      (i < |Chunks(s)| - 1 ==> |Chunks(s)[i]| == BATCH_SIZE)
    decreases |s|
  {
    if |s| > 0 {
      var k := Min(|s|, BATCH_SIZE);
      ChunksShape(s[k..]);
      assert Chunks(s) == [s[..k]] + Chunks(s[k..]);
      if k < BATCH_SIZE {
        assert Chunks(s[k..]) == [];
      }
    }
  }

  /** Concatenating the batches gives back the input, in order. */
  lemma {:induction false} ChunksFlatten<T>(s: seq<T>)
    ensures Flatten(Chunks(s)) == s
    decreases |s|
  {
    if |s| > 0 {
      var k := Min(|s|, BATCH_SIZE);
      ChunksFlatten(s[k..]);
      assert Chunks(s) == [s[..k]] + Chunks(s[k..]);
      assert s == s[..k] + s[k..];
    }
  }

  /** One step of Chunks from offset i of the input. */
  lemma ChunksFrom<T>(s: seq<T>, i: nat)
    requires i < |s|
    ensures Chunks(s[i..]) == [s[i..Min(i + BATCH_SIZE, |s|)]] + Chunks(s[Min(i + BATCH_SIZE, |s|)..])
  {
    var t := s[i..];
    var k := Min(|t|, BATCH_SIZE);
    assert t[..k] == s[i..Min(i + BATCH_SIZE, |s|)];
    assert t[k..] == s[Min(i + BATCH_SIZE, |s|)..];
  }

  /** The partitioning loop of the service. */
  method MakeBatches<T>(tasks: seq<T>) returns (batches: seq<seq<T>>)
    ensures batches == Chunks(tasks)
  {
    batches := [];
    var i: nat := 0;
    while i < |tasks|
      invariant i < |tasks| + BATCH_SIZE
      invariant batches + Chunks(tasks[Min(i, |tasks|)..]) == Chunks(tasks)
      decreases |tasks| - i
    {
      ChunksFrom(tasks, i);
      batches := batches + [tasks[i..Min(i + BATCH_SIZE, |tasks|)]];
      i := i + BATCH_SIZE;
    }
    assert tasks[Min(i, |tasks|)..] == [];
  }

  // ---------------------------------------------------------------------------
  // Joining the replies

  /** A call failure rejects `Promise.all`; malformed text makes `JSON.parse`
      throw. Both reach the same catch. */
  predicate Fails(r: Reply)
  {
    r.CallFailed? || r.Malformed?
  }

  /** What one successful reply adds: its recommendations, or nothing when
      the parsed object has no `recommendations` field. */
  function Contribution(r: Reply): seq<Recommendation>
  {
    if r.Parsed? && r.recommendations.Some? then r.recommendations.value else []
  }

  function Contributions(replies: seq<Reply>): (cs: seq<seq<Recommendation>>)
    ensures |cs| == |replies|
  {
    seq(|replies|, i requires 0 <= i < |replies| => Contribution(replies[i]))
  }

  /** The outcome of the join: one failure fails the whole operation, with the
      fixed message; otherwise the contributions concatenated in batch order. */
  function Gathered(replies: seq<Reply>): Result<seq<Recommendation>, string>
  {
    if exists i :: 0 <= i < |replies| && Fails(replies[i]) then Failure(FailureMessage)
    else Success(Flatten(Contributions(replies)))
  }

  /** The `for ... of` loop over the replies, pushing each reply's items. */
  method CollectRecommendations(replies: seq<Reply>) returns (r: Result<seq<Recommendation>, string>)
    ensures r == Gathered(replies)
  {
    var all: seq<Recommendation> := [];
    var i := 0;
    while i < |replies|
      invariant 0 <= i <= |replies|
      invariant forall j :: 0 <= j < i ==> !Fails(replies[j])
      invariant all == Flatten(Contributions(replies[..i]))
    {
      var reply := replies[i];
      if reply.CallFailed? || reply.Malformed? {
        return Failure(FailureMessage);
      }
      assert Contributions(replies[..i + 1]) == Contributions(replies[..i]) + [Contribution(reply)];
      FlattenAppend(Contributions(replies[..i]), Contribution(reply));
      if reply.recommendations.Some? {
        all := all + reply.recommendations.value;
      }
      i := i + 1;
    }
    assert replies[..i] == replies;
    return Success(all);
  }

  // ---------------------------------------------------------------------------
  // The whole orchestration

  /** The request payloads, one per batch, in submission order. */
  function Requests(tasks: seq<Task>, associates: seq<ProcessedAssociate>): (rs: seq<BatchRequest>)
    ensures |rs| == |Chunks(tasks)|
  {
    var bs := Chunks(tasks);
    seq(|bs|, i requires 0 <= i < |bs| => BuildRequest(bs[i], associates))
  }

  function Replies(tasks: seq<Task>, associates: seq<ProcessedAssociate>, provider: BatchRequest -> Reply): seq<Reply>
  {
    var rs := Requests(tasks, associates);
    seq(|rs|, i requires 0 <= i < |rs| => provider(rs[i]))
  }

  function Orchestrate(tasks: seq<Task>, associates: seq<ProcessedAssociate>, provider: BatchRequest -> Reply)
    : Result<seq<Recommendation>, string>
  {
    Gathered(Replies(tasks, associates, provider))
  }

  /** getAIPrioritizationAndAssignments: batch, call the provider once per
      batch, join. */
  method GetAIPrioritizationAndAssignments(
    tasks: seq<Task>, associates: seq<ProcessedAssociate>, provider: BatchRequest -> Reply)
    returns (r: Result<seq<Recommendation>, string>)
    ensures r == Orchestrate(tasks, associates, provider)
  {
    var batches := MakeBatches(tasks);
    var replies := seq(|batches|, i requires 0 <= i < |batches| => provider(BuildRequest(batches[i], associates)));
    assert replies == Replies(tasks, associates, provider);
    r := CollectRecommendations(replies);
  }
}

/** What the orchestration promises about its outcome. */
module GeminiServiceProperties {
  import opened Wrappers
  import opened Types
  import opened Seqs
  import opened GeminiService

  function TaskId(t: Task): string { t.id }
  function PayloadId(p: TaskPayload): string { p.id }
  function RecommendationTaskId(r: Recommendation): string { r.taskId }

  /** The task ids of every request, concatenated in submission order, are
      exactly the input's ids: no task is dropped, repeated or reordered. */
  lemma RequestTaskIds(tasks: seq<Task>, associates: seq<ProcessedAssociate>)
    ensures var rs := Requests(tasks, associates);
      Flatten(seq(|rs|, i requires 0 <= i < |rs| => Map(PayloadId, rs[i].tasks))) == Map(TaskId, tasks)
  {
    var rs := Requests(tasks, associates);
    var bs := Chunks(tasks);
    var left := seq(|rs|, i requires 0 <= i < |rs| => Map(PayloadId, rs[i].tasks));
    var right := seq(|bs|, i requires 0 <= i < |bs| => Map(TaskId, bs[i]));
    forall i | 0 <= i < |rs|
      ensures left[i] == right[i]
    {
      assert rs[i] == BuildRequest(bs[i], associates);
      assert Map(PayloadId, rs[i].tasks) == Map(TaskId, bs[i]);
    }
    assert left == right;
    MapFlatten(TaskId, bs);
    ChunksFlatten(tasks);
  }

  /** Empty input: no batch, no call, and an empty list whatever the provider. */
  lemma OrchestrateEmpty(associates: seq<ProcessedAssociate>, provider: BatchRequest -> Reply)
    ensures Requests([], associates) == []
    ensures Orchestrate([], associates, provider) == Success([])
  {
    assert Chunks<Task>([]) == [];
    assert Replies([], associates, provider) == [];
  }

  /** The operation fails exactly when some batch's reply fails, and then
      with the one fixed message; otherwise the result is every batch's
      contribution, concatenated in submission order. */
  lemma OrchestrateFailsAsUnit(tasks: seq<Task>, associates: seq<ProcessedAssociate>, provider: BatchRequest -> Reply)
    ensures var rs := Requests(tasks, associates);
      Orchestrate(tasks, associates, provider).Failure? <==>
        exists i :: 0 <= i < |rs| && Fails(provider(rs[i]))
    ensures Orchestrate(tasks, associates, provider).Failure? ==>
      Orchestrate(tasks, associates, provider).error == FailureMessage
    ensures Orchestrate(tasks, associates, provider).Success? ==>
      Orchestrate(tasks, associates, provider).value == Flatten(Contributions(Replies(tasks, associates, provider)))
  {
    var rs := Requests(tasks, associates);
    var replies := Replies(tasks, associates, provider);
    if exists i :: 0 <= i < |rs| && Fails(provider(rs[i])) {
      var i :| 0 <= i < |rs| && Fails(provider(rs[i]));
      assert Fails(replies[i]);
    }
  }

  /** A provider that answers every request with one recommendation per task,
      for the same tasks in the same order. */
  ghost predicate EchoesEveryTask(provider: BatchRequest -> Reply)
  {
    forall req :: provider(req).Parsed? && provider(req).recommendations.Some? &&
      Map(RecommendationTaskId, provider(req).recommendations.value) == Map(PayloadId, req.tasks)
  }

  /** Against such a provider the joined list names the input tasks in input
      order: batch order is preserved across the join. */
  lemma OrchestratePreservesOrder(tasks: seq<Task>, associates: seq<ProcessedAssociate>, provider: BatchRequest -> Reply)
    requires EchoesEveryTask(provider)
    ensures Orchestrate(tasks, associates, provider).Success?
    ensures Map(RecommendationTaskId, Orchestrate(tasks, associates, provider).value) == Map(TaskId, tasks)
  {
    var rs := Requests(tasks, associates);
    var replies := Replies(tasks, associates, provider);
    assert forall i :: 0 <= i < |replies| ==> !Fails(replies[i]);
    var cs := Contributions(replies);
    MapFlatten(RecommendationTaskId, cs);
    var left := seq(|cs|, i requires 0 <= i < |cs| => Map(RecommendationTaskId, cs[i]));
    var mid := seq(|rs|, i requires 0 <= i < |rs| => Map(PayloadId, rs[i].tasks));
    assert left == mid;
    RequestTaskIds(tasks, associates);
  }

  /** 23 tasks go out as three batches of 10, 10 and 3. */
  lemma TwentyThreeTasks(tasks: seq<Task>)
    requires |tasks| == 23
    ensures |Chunks(tasks)| == 3
    ensures |Chunks(tasks)[0]| == 10 && |Chunks(tasks)[1]| == 10 && |Chunks(tasks)[2]| == 3
  {
    var s1 := tasks[10..];
    var s2 := s1[10..];
    assert Chunks(s2) == [s2[..3]] + Chunks(s2[3..]);
    assert Chunks(s2[3..]) == [];
    assert Chunks(s1) == [s1[..10]] + Chunks(s2);
    assert Chunks(tasks) == [tasks[..10]] + Chunks(s1);
  }
}
