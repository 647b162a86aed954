/** `handleRunAIAnalysis` of App.tsx: pick the unassigned tasks, stop with a
    notice when there are none, otherwise clear every suggestion, ask the
    service for recommendations and merge them into the cleared collection.
    The state it touches is the task collection, the error banner and the
    unassigned view's sort key; the loading flag and the timer that clears
    the notice are not modelled. */
module Analysis {
  import opened Wrappers
  import opened Types
  import opened Seqs
  import opened TaskViews
  import opened Workload
  import opened Suggestions
  import opened GeminiService
  import opened GeminiServiceProperties

  const NoTasksMessage: string := "No unassigned tasks to process."

  datatype DashboardState = DashboardState(tasks: seq<Task>, error: Option<string>, unassignedSortKey: string)

  /** The state after one AI pass. The reset is applied before the service is
      called, so a failed pass leaves the suggestions cleared. */
  function AnalysisResult(state: DashboardState, associates: seq<Associate>, provider: BatchRequest -> Reply): DashboardState
  {
    var pending := UnassignedTasks(state.tasks);
    if |pending| == 0 then state.(error := Some(NoTasksMessage))
    else
      var cleared := ResetSuggestions(state.tasks);
      match Orchestrate(pending, ProcessedAssociates(associates, state.tasks), provider)
      case Failure(e) => DashboardState(cleared, Some(e), "aiPriorityScore")
      case Success(recs) => DashboardState(MergeAll(cleared, recs), None, "aiPriorityScore")
  }

  method RunAIAnalysis(state: DashboardState, associates: seq<Associate>, provider: BatchRequest -> Reply)
    returns (next: DashboardState)
    ensures next == AnalysisResult(state, associates, provider)
  {
    var tasksToAnalyze := UnassignedTasks(state.tasks);
    if |tasksToAnalyze| == 0 {
      return state.(error := Some(NoTasksMessage));
    }
    var roster := AssociatesWithWorkload(associates, state.tasks);
    var cleared := ResetSuggestions(state.tasks);
    var outcome := GetAIPrioritizationAndAssignments(tasksToAnalyze, roster, provider);
    match outcome {
      case Failure(e) =>
        next := DashboardState(cleared, Some(e), "aiPriorityScore");
      case Success(recs) =>
        var merged := MergeRecommendations(cleared, recs);
        next := DashboardState(merged, None, "aiPriorityScore");
    }
  }

  /** With nothing unassigned the pass is a no-op on the tasks, whatever the
      provider would have answered: no reset and no call happen. */
  lemma NothingToAnalyze(state: DashboardState, associates: seq<Associate>, provider: BatchRequest -> Reply)
    requires forall t :: t in state.tasks ==> !IsUnassigned(t)
    ensures AnalysisResult(state, associates, provider).tasks == state.tasks
    ensures AnalysisResult(state, associates, provider).error == Some(NoTasksMessage)
    ensures AnalysisResult(state, associates, provider).unassignedSortKey == state.unassignedSortKey
  {
    FilterNone(IsUnassigned, state.tasks);
  }

  /** A pass keeps the collection's length and every task's non-AI fields, so
      no task changes view or workload. */
  lemma AnalysisKeepsCore(state: DashboardState, associates: seq<Associate>, provider: BatchRequest -> Reply)
    ensures |AnalysisResult(state, associates, provider).tasks| == |state.tasks|
    ensures forall k :: 0 <= k < |state.tasks| ==>
      SameCore(AnalysisResult(state, associates, provider).tasks[k], state.tasks[k])
  {
    match Orchestrate(UnassignedTasks(state.tasks), ProcessedAssociates(associates, state.tasks), provider)
    case Failure(_) =>
    case Success(recs) => MergeKeepsOthers(ResetSuggestions(state.tasks), recs);
  }

  /** One failing batch fails the pass: the banner shows the service's
      message and no task carries a suggestion, not even those of batches
      that succeeded. */
  lemma FailedPassAppliesNothing(state: DashboardState, associates: seq<Associate>, provider: BatchRequest -> Reply, b: nat)
    requires var rs := Requests(UnassignedTasks(state.tasks), ProcessedAssociates(associates, state.tasks));
      b < |rs| && Fails(provider(rs[b]))
    ensures AnalysisResult(state, associates, provider).error == Some(FailureMessage)
    ensures forall k :: 0 <= k < |AnalysisResult(state, associates, provider).tasks| ==>
      NoSuggestion(AnalysisResult(state, associates, provider).tasks[k])
  {
    OrchestrateFailsAsUnit(UnassignedTasks(state.tasks), ProcessedAssociates(associates, state.tasks), provider);
    ChunksCount(UnassignedTasks(state.tasks));
  }

  /** After a successful pass a task carries a suggestion only if some
      recommendation named it: stale suggestions from earlier passes are gone. */
  lemma SuccessfulPassClearsStale(state: DashboardState, associates: seq<Associate>, provider: BatchRequest -> Reply)
    requires AnalysisResult(state, associates, provider).error.None?
    ensures var recs := Orchestrate(UnassignedTasks(state.tasks), ProcessedAssociates(associates, state.tasks), provider).value;
      var out := AnalysisResult(state, associates, provider).tasks;
      |out| == |state.tasks| &&
      forall k :: 0 <= k < |out| && (forall j :: 0 <= j < |recs| ==> recs[j].taskId != state.tasks[k].id) ==>
        NoSuggestion(out[k])
  {
    var recs := Orchestrate(UnassignedTasks(state.tasks), ProcessedAssociates(associates, state.tasks), provider).value;
    MergeKeepsOthers(ResetSuggestions(state.tasks), recs);
  }

  /** A provider that answers for every task it is sent, against a collection
      with unique ids and something to analyse: after the pass exactly the
      tasks that were unassigned carry a suggestion. */
  lemma EchoingPassSuggestsExactlyUnassigned(state: DashboardState, associates: seq<Associate>, provider: BatchRequest -> Reply)
    requires EchoesEveryTask(provider)
    requires exists k :: 0 <= k < |state.tasks| && IsUnassigned(state.tasks[k])
    requires forall i, j :: 0 <= i < j < |state.tasks| ==> state.tasks[i].id != state.tasks[j].id
    ensures var out := AnalysisResult(state, associates, provider).tasks;
      |out| == |state.tasks| &&
      forall k :: 0 <= k < |out| ==> (out[k].suggestedTo.Some? <==> IsUnassigned(state.tasks[k]))
  {
    var ts := state.tasks;
    var pending := UnassignedTasks(ts);
    FilterMembers(IsUnassigned, ts);
    var k0 :| 0 <= k0 < |ts| && IsUnassigned(ts[k0]);
    assert ts[k0] in pending;
    var roster := ProcessedAssociates(associates, ts);
    OrchestratePreservesOrder(pending, roster, provider);
    var recs := Orchestrate(pending, roster, provider).value;
    assert AnalysisResult(state, associates, provider).tasks == MergeAll(ResetSuggestions(ts), recs);
    MergeSuggestsExactlyNamed(ts, recs);
  }

  /** Merging, into the cleared collection, recommendations that name exactly
      the unassigned tasks in order leaves a suggestion on exactly those. */
  lemma MergeSuggestsExactlyNamed(ts: seq<Task>, recs: seq<Recommendation>)
    requires forall i, j :: 0 <= i < j < |ts| ==> ts[i].id != ts[j].id
    requires Map(RecommendationTaskId, recs) == Map(TaskId, UnassignedTasks(ts))
    ensures var out := MergeAll(ResetSuggestions(ts), recs);
      |out| == |ts| &&
      forall k :: 0 <= k < |out| ==> (out[k].suggestedTo.Some? <==> IsUnassigned(ts[k]))
  {
    var cleared := ResetSuggestions(ts);
    FilterMembers(IsUnassigned, ts);
    MergeAllAt(cleared, recs);
    assert forall i, j :: 0 <= i < j < |cleared| ==> cleared[i].id != cleared[j].id;
    forall k | 0 <= k < |ts|
      ensures MergeAll(cleared, recs)[k].suggestedTo.Some? <==> IsUnassigned(ts[k])
    {
      FirstIndexOfUnique(cleared, k);
      NamedIffPending(ts, recs, k);
    }
  }

  /** With unique ids, a task is named by the echoed recommendations exactly
      when it is unassigned. */
  lemma NamedIffPending(ts: seq<Task>, recs: seq<Recommendation>, k: nat)
    requires k < |ts|
    requires forall i, j :: 0 <= i < j < |ts| ==> ts[i].id != ts[j].id
    requires Map(RecommendationTaskId, recs) == Map(TaskId, UnassignedTasks(ts))
    requires forall t :: t in UnassignedTasks(ts) <==> t in ts && IsUnassigned(t)
    ensures LastFor(recs, ts[k].id).Some? <==> IsUnassigned(ts[k])
  {
    var id := ts[k].id;
    var pending := UnassignedTasks(ts);
    if IsUnassigned(ts[k]) {
      assert ts[k] in pending;
      var p :| 0 <= p < |pending| && pending[p] == ts[k];
      assert Map(TaskId, pending)[p] == id;
      assert recs[p].taskId == id;
    } else {
      forall j | 0 <= j < |recs|
        ensures recs[j].taskId != id
      {
        assert Map(RecommendationTaskId, recs)[j] == Map(TaskId, pending)[j];
        assert pending[j] in pending;
        var i :| 0 <= i < |ts| && ts[i] == pending[j];
        assert IsUnassigned(ts[i]);
        assert i != k;
      }
    }
  }
}
