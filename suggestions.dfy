/** The three updates App.tsx makes to the suggestion fields of the task
    collection: the reset at the start of an AI pass, the merge of the
    provider's recommendations, and the accept transition. */
module Suggestions {
  import opened Wrappers
  import opened Types
  import opened TaskViews
  import opened Workload

  predicate NoSuggestion(t: Task)
  {
    t.suggestedTo.None? && t.aiPriorityScore.None? && t.aiReasoning.None?
  }

  // ---------------------------------------------------------------------------
  // Reset

  function ClearSuggestion(t: Task): Task
  {
    t.(suggestedTo := None, aiPriorityScore := None, aiReasoning := None)
  }

  /** The reset queued at the start of an AI pass: a copy of every task with
      its suggested assignee, AI score and AI reasoning cleared and every
      other field kept. */
  function ResetSuggestions(ts: seq<Task>): (r: seq<Task>)
    ensures |r| == |ts|
    ensures forall i :: 0 <= i < |ts| ==> SameCore(r[i], ts[i]) && NoSuggestion(r[i])
  {
    seq(|ts|, i requires 0 <= i < |ts| => ClearSuggestion(ts[i]))
  }

  /** Resetting twice is resetting once. */
  lemma ResetIdempotent(ts: seq<Task>)
    ensures ResetSuggestions(ResetSuggestions(ts)) == ResetSuggestions(ts)
  {
  }

  /** The reset moves no task between the views and changes no workload:
      each view of the reset collection is the reset of the old view, task
      for task and in the same order. */
  lemma {:induction false} ResetKeepsViewsAndWorkload(ts: seq<Task>, associateId: string)
    ensures forall i :: 0 <= i < |ts| ==>
      (IsUnassigned(ResetSuggestions(ts)[i]) <==> IsUnassigned(ts[i]))
    ensures UnassignedTasks(ResetSuggestions(ts)) == ResetSuggestions(UnassignedTasks(ts))
    ensures AssignedTasks(ResetSuggestions(ts)) == ResetSuggestions(AssignedTasks(ts))
    ensures |UnassignedTasks(ResetSuggestions(ts))| == |UnassignedTasks(ts)|
    ensures WorkloadOf(ResetSuggestions(ts), associateId) == WorkloadOf(ts, associateId)
  {
    ResetFilter(IsUnassigned, ts);
    ResetFilter(IsInAssignedView, ts);
    ResetCounts(ts, associateId);
  }

  lemma ResetAppend(xs: seq<Task>, ys: seq<Task>)
    ensures ResetSuggestions(xs + ys) == ResetSuggestions(xs) + ResetSuggestions(ys)
  {
  }

  /** A filter that ignores the suggestion fields commutes with the reset. */
  lemma {:induction false} ResetFilter(p: Task -> bool, ts: seq<Task>)
    requires forall t :: p(ClearSuggestion(t)) == p(t)
    ensures Filter(p, ResetSuggestions(ts)) == ResetSuggestions(Filter(p, ts))
  {
    if |ts| > 0 {
      ResetFilter(p, ts[1..]);
      assert ResetSuggestions(ts)[1..] == ResetSuggestions(ts[1..]);
      ResetAppend(if p(ts[0]) then [ts[0]] else [], Filter(p, ts[1..]));
    }
  }

  lemma {:induction false} ResetCounts(ts: seq<Task>, associateId: string)
    ensures WorkloadOf(ResetSuggestions(ts), associateId) == WorkloadOf(ts, associateId)
  {
    if |ts| > 0 {
      var n := |ts| - 1;
      ResetCounts(ts[..n], associateId);
      assert ResetSuggestions(ts)[..n] == ResetSuggestions(ts[..n]);
    }
  }

  // ---------------------------------------------------------------------------
  // Merge

  /** The three assignments made to the matched task. */
  function Suggest(t: Task, r: Recommendation): Task
  {
    t.(suggestedTo := Some(r.suggestedAssociateId), aiPriorityScore := Some(r.priorityScore), aiReasoning := Some(r.reasoning))
  }

  /** `findIndex(t => t.id === id)`, with `None` for -1. */
  function FirstIndex(ts: seq<Task>, id: string): (k: Option<nat>)
    ensures k.Some? ==>
      k.value < |ts| && ts[k.value].id == id && forall j :: 0 <= j < k.value ==> ts[j].id != id
    ensures k.None? ==> forall j :: 0 <= j < |ts| ==> ts[j].id != id
  {
    if |ts| == 0 then None
    else if ts[0].id == id then Some(0)
    else match FirstIndex(ts[1..], id)
      case None => None
      case Some(k) => Some(k + 1)
  }

  /** One iteration of the merge's `forEach`: a recommendation for an unknown
      id changes nothing; otherwise the first task with that id takes it. */
  function ApplyRecommendation(ts: seq<Task>, r: Recommendation): seq<Task>
  {
    match FirstIndex(ts, r.taskId)
    case None => ts
    case Some(k) => ts[k := Suggest(ts[k], r)]
  }

  /** The recommendations applied in list order. */
  function MergeAll(ts: seq<Task>, recs: seq<Recommendation>): seq<Task>
  {
    if |recs| == 0 then ts
    else ApplyRecommendation(MergeAll(ts, recs[..|recs| - 1]), recs[|recs| - 1])
  }

  /** The last recommendation naming `id`, if any. */
  function LastFor(recs: seq<Recommendation>, id: string): (r: Option<Recommendation>)
    ensures r.Some? ==> r.value in recs && r.value.taskId == id
    ensures r.None? ==> forall j :: 0 <= j < |recs| ==> recs[j].taskId != id
  {
    if |recs| == 0 then None
    else if recs[|recs| - 1].taskId == id then Some(recs[|recs| - 1])
    else LastFor(recs[..|recs| - 1], id)
  }

  /** With unique ids, `findIndex` finds each task at its own position. */
  lemma FirstIndexOfUnique(ts: seq<Task>, k: nat)
    requires k < |ts|
    requires forall i, j :: 0 <= i < j < |ts| ==> ts[i].id != ts[j].id
    ensures FirstIndex(ts, ts[k].id) == Some(k)
  {
  }

  /** `findIndex` depends only on the ids. */
  lemma {:induction false} FirstIndexByIds(ts: seq<Task>, us: seq<Task>, id: string)
    requires |ts| == |us| && forall i :: 0 <= i < |ts| ==> ts[i].id == us[i].id
    ensures FirstIndex(ts, id) == FirstIndex(us, id)
  {
    if |ts| > 0 && ts[0].id != id {
      FirstIndexByIds(ts[1..], us[1..], id);
    }
  }

  /** The merge never changes a task's id or the collection's length. */
  lemma {:induction false} MergeKeepsIds(ts: seq<Task>, recs: seq<Recommendation>)
    ensures |MergeAll(ts, recs)| == |ts|
    ensures forall i :: 0 <= i < |ts| ==> MergeAll(ts, recs)[i].id == ts[i].id
  {
    if |recs| > 0 {
      MergeKeepsIds(ts, recs[..|recs| - 1]);
    }
  }

  /** What the merge leaves at each position: the first task with a given id
      carries the last recommendation for that id; every other task — later
      duplicates of an id, and tasks no recommendation names — is unchanged. */
  lemma {:induction false} MergeAllAt(ts: seq<Task>, recs: seq<Recommendation>)
    ensures |MergeAll(ts, recs)| == |ts|
    ensures forall k :: 0 <= k < |ts| ==>
      MergeAll(ts, recs)[k] ==
        if FirstIndex(ts, ts[k].id) == Some(k) && LastFor(recs, ts[k].id).Some?
        then Suggest(ts[k], LastFor(recs, ts[k].id).value)
        else ts[k]
  {
    if |recs| > 0 {
      var front := recs[..|recs| - 1];
      var r := recs[|recs| - 1];
      var m := MergeAll(ts, front);
      MergeAllAt(ts, front);
      assert forall i :: 0 <= i < |ts| ==> m[i].id == ts[i].id;
      FirstIndexByIds(m, ts, r.taskId);
      forall k | 0 <= k < |ts|
        ensures MergeAll(ts, recs)[k] ==
          if FirstIndex(ts, ts[k].id) == Some(k) && LastFor(recs, ts[k].id).Some?
          then Suggest(ts[k], LastFor(recs, ts[k].id).value)
          else ts[k]
      {
        if ts[k].id == r.taskId {
          assert LastFor(recs, ts[k].id) == Some(r);
        } else {
          assert LastFor(recs, ts[k].id) == LastFor(front, ts[k].id);
        }
      }
    }
  }

  /** The merge keeps the length and every field but the three suggestion
      fields, and a task no recommendation names is left exactly as it was. */
  lemma MergeKeepsOthers(ts: seq<Task>, recs: seq<Recommendation>)
    ensures |MergeAll(ts, recs)| == |ts|
    ensures forall k :: 0 <= k < |ts| ==> SameCore(MergeAll(ts, recs)[k], ts[k])
    ensures forall k :: 0 <= k < |ts| && (forall j :: 0 <= j < |recs| ==> recs[j].taskId != ts[k].id) ==>
      MergeAll(ts, recs)[k] == ts[k]
  {
    MergeAllAt(ts, recs);
  }

  /** A recommendation for an id no task has is ignored. */
  lemma MergeIgnoresUnknown(ts: seq<Task>, recs: seq<Recommendation>, r: Recommendation)
    requires forall t :: t in ts ==> t.id != r.taskId
    ensures MergeAll(ts, recs + [r]) == MergeAll(ts, recs)
  {
    assert (recs + [r])[..|recs|] == recs;
    MergeKeepsIds(ts, recs);
    FirstIndexByIds(MergeAll(ts, recs), ts, r.taskId);
  }

  /** Of two recommendations for the same task, the later one wins whatever
      was sent between them: the earlier one might as well not have been
      sent. (With `b` empty and `r1 == r2`: applying the same recommendation
      twice is applying it once.) */
  lemma LastWriteWins(ts: seq<Task>, a: seq<Recommendation>, r1: Recommendation, b: seq<Recommendation>, r2: Recommendation)
    requires r1.taskId == r2.taskId
    ensures MergeAll(ts, a + [r1] + b + [r2]) == MergeAll(ts, a + b + [r2])
  {
    var long := a + [r1] + b + [r2];
    var short := a + b + [r2];
    MergeAllAt(ts, long);
    MergeAllAt(ts, short);
    assert long[..|long| - 1] == a + [r1] + b;
    assert short[..|short| - 1] == a + b;
    forall k | 0 <= k < |ts|
      ensures MergeAll(ts, long)[k] == MergeAll(ts, short)[k]
    {
      if ts[k].id != r2.taskId {
        LastForSkips(a, r1, b, ts[k].id);
      }
    }
  }

  /** `LastFor` looks past a recommendation for another id. */
  lemma {:induction false} LastForSkips(a: seq<Recommendation>, x: Recommendation, b: seq<Recommendation>, id: string)
    requires x.taskId != id
    ensures LastFor(a + [x] + b, id) == LastFor(a + b, id)
  {
    if |b| == 0 {
      assert a + [x] + b == a + [x];
      assert (a + [x])[..|a|] == a;
      assert a + b == a;
    } else {
      var front := b[..|b| - 1];
      assert (a + [x] + b)[..|a| + |b|] == a + [x] + front;
      assert (a + b)[..|a| + |b| - 1] == a + front;
      LastForSkips(a, x, front, id);
    }
  }

  /** Merging the same recommendations again changes nothing. */
  lemma MergeIdempotent(ts: seq<Task>, recs: seq<Recommendation>)
    ensures MergeAll(MergeAll(ts, recs), recs) == MergeAll(ts, recs)
  {
    var m := MergeAll(ts, recs);
    MergeAllAt(ts, recs);
    MergeAllAt(m, recs);
    assert forall i :: 0 <= i < |ts| ==> m[i].id == ts[i].id;
    forall k | 0 <= k < |ts|
      ensures MergeAll(m, recs)[k] == m[k]
    {
      FirstIndexByIds(m, ts, ts[k].id);
    }
  }

  /** The `findIndex` call of the merge, over the working copy. */
  method FindIndex(a: array<Task>, id: string) returns (k: int)
    ensures -1 <= k < a.Length
    ensures k == -1 <==> forall j :: 0 <= j < a.Length ==> a[j].id != id
    ensures k != -1 ==> a[k].id == id && forall j :: 0 <= j < k ==> a[j].id != id
  {
    k := 0;
    while k < a.Length
      invariant 0 <= k <= a.Length
      invariant forall j :: 0 <= j < k ==> a[j].id != id
    {
      if a[k].id == id {
        return;
      }
      k := k + 1;
    }
    k := -1;
  }

  /** One merge step, given the index `findIndex` returned. */
  lemma ApplyAt(ts: seq<Task>, r: Recommendation, k: int)
    requires -1 <= k < |ts|
    requires k == -1 <==> forall j :: 0 <= j < |ts| ==> ts[j].id != r.taskId
    requires k != -1 ==> ts[k].id == r.taskId && forall j :: 0 <= j < k ==> ts[j].id != r.taskId
    ensures ApplyRecommendation(ts, r) == if k == -1 then ts else ts[k := Suggest(ts[k], r)]
  {
    if k != -1 {
      assert FirstIndex(ts, r.taskId) == Some(k);
    }
  }

  /** The merge step of the AI pass: copy the collection, then for each
      recommendation overwrite the suggestion fields of the first task with
      its id, in place. */
  method MergeRecommendations(current: seq<Task>, recs: seq<Recommendation>) returns (updated: seq<Task>)
    ensures updated == MergeAll(current, recs)
  {
    var a := new Task[|current|](i requires 0 <= i < |current| => current[i]);
    assert a[..] == current;
    for i := 0 to |recs|
      invariant a[..] == MergeAll(current, recs[..i])
    {
      var r := recs[i];
      assert recs[..i + 1][..i] == recs[..i];
      var k := FindIndex(a, r.taskId);
      ApplyAt(a[..], r, k);
      if k != -1 {
        a[k] := a[k].(suggestedTo := Some(r.suggestedAssociateId));
        a[k] := a[k].(aiPriorityScore := Some(r.priorityScore));
        a[k] := a[k].(aiReasoning := Some(r.reasoning));
      }
    }
    assert recs[..|recs|] == recs;
    updated := a[..];
  }

  // ---------------------------------------------------------------------------
  // Accept

  /** `handleAcceptSuggestion`: every task with the id gets the associate as
      assignee, status In Progress and no suggested assignee; its AI score and
      reasoning stay as they were. Other tasks are unchanged. */
  function AcceptSuggestion(ts: seq<Task>, taskId: string, associateId: string): (r: seq<Task>)
    ensures |r| == |ts|
    ensures forall i :: 0 <= i < |ts| && ts[i].id != taskId ==> r[i] == ts[i]
    ensures forall i :: 0 <= i < |ts| && ts[i].id == taskId ==>
      && r[i].assignedTo == Some(associateId) && r[i].status == InProgress && r[i].suggestedTo.None?
      && r[i].aiPriorityScore == ts[i].aiPriorityScore && r[i].aiReasoning == ts[i].aiReasoning
      && r[i].id == ts[i].id && r[i].title == ts[i].title && r[i].description == ts[i].description
      && r[i].source == ts[i].source && r[i].priority == ts[i].priority
      && r[i].complexity == ts[i].complexity && r[i].businessImpact == ts[i].businessImpact
      && r[i].dependencies == ts[i].dependencies && r[i].moduleName == ts[i].moduleName
  {
    seq(|ts|, i requires 0 <= i < |ts| =>
      if ts[i].id == taskId then ts[i].(assignedTo := Some(associateId), status := InProgress, suggestedTo := None)
      else ts[i])
  }

  /** Holds of the tasks whose id is not `taskId`. */
  function OtherThan(taskId: string): Task -> bool
  {
    (t: Task) => t.id != taskId
  }

  /** After accepting, the unassigned view is the old view with every task
      carrying the id dropped: same tasks, same order, same multiplicity. */
  lemma AcceptLeavesUnassignedView(ts: seq<Task>, taskId: string, associateId: string)
    ensures UnassignedTasks(AcceptSuggestion(ts, taskId, associateId)) ==
      Filter(OtherThan(taskId), UnassignedTasks(ts))
    ensures forall t :: t in UnassignedTasks(AcceptSuggestion(ts, taskId, associateId)) <==>
      t in UnassignedTasks(ts) && t.id != taskId
  {
    AcceptFilter(ts, taskId, associateId);
    FilterMembers(IsUnassigned, ts);
    FilterMembers(OtherThan(taskId), UnassignedTasks(ts));
  }

  lemma {:induction false} AcceptFilter(ts: seq<Task>, taskId: string, associateId: string)
    ensures UnassignedTasks(AcceptSuggestion(ts, taskId, associateId)) ==
      Filter(OtherThan(taskId), UnassignedTasks(ts))
  {
    if |ts| > 0 {
      var others := OtherThan(taskId);
      var r := AcceptSuggestion(ts, taskId, associateId);
      AcceptFilter(ts[1..], taskId, associateId);
      assert r[1..] == AcceptSuggestion(ts[1..], taskId, associateId);
      assert UnassignedTasks(r) == (if IsUnassigned(r[0]) then [r[0]] else []) + Filter(others, UnassignedTasks(ts[1..]));
      var rest := UnassignedTasks(ts[1..]);
      if IsUnassigned(ts[0]) {
        assert UnassignedTasks(ts) == [ts[0]] + rest;
        assert ([ts[0]] + rest)[1..] == rest;
        assert Filter(others, UnassignedTasks(ts)) == (if others(ts[0]) then [ts[0]] else []) + Filter(others, rest);
        if ts[0].id == taskId {
          assert !IsUnassigned(r[0]);
        } else {
          assert r[0] == ts[0];
        }
      } else {
        assert UnassignedTasks(ts) == rest;
        assert !IsUnassigned(r[0]);
      }
    }
  }

  /** Number of tasks with the id. */
  function CountWithId(ts: seq<Task>, taskId: string): nat
  {
    if |ts| == 0 then 0
    else CountWithId(ts[..|ts| - 1], taskId) + (if ts[|ts| - 1].id == taskId then 1 else 0)
  }

  /** Number of tasks with the id that already count for the associate. */
  function CountWithIdFor(ts: seq<Task>, taskId: string, associateId: string): nat
  {
    if |ts| == 0 then 0
    else
      var t := ts[|ts| - 1];
      CountWithIdFor(ts[..|ts| - 1], taskId, associateId) + (if t.id == taskId && CountsFor(t, associateId) then 1 else 0)
  }

  /** Accepting moves every task with the id into the accepting associate's
      workload total and out of every other associate's. */
  lemma {:induction false} AcceptWorkloadTotals(ts: seq<Task>, taskId: string, associateId: string, other: string)
    ensures InProgressCount(AcceptSuggestion(ts, taskId, associateId), other) ==
      InProgressCount(ts, other) - CountWithIdFor(ts, taskId, other) +
      (if other == associateId then CountWithId(ts, taskId) else 0)
  {
    if |ts| > 0 {
      var n := |ts| - 1;
      AcceptWorkloadTotals(ts[..n], taskId, associateId, other);
      assert AcceptSuggestion(ts, taskId, associateId)[..n] == AcceptSuggestion(ts[..n], taskId, associateId);
    }
  }

  /** With unique ids, accepting an unassigned task adds exactly one to the
      accepting associate's total and leaves everyone else's unchanged. */
  lemma {:induction false} AcceptAddsOneTask(ts: seq<Task>, k: nat, associateId: string, other: string)
    requires k < |ts| && IsUnassigned(ts[k])
    requires forall i, j :: 0 <= i < j < |ts| ==> ts[i].id != ts[j].id
    ensures InProgressCount(AcceptSuggestion(ts, ts[k].id, associateId), other) ==
      InProgressCount(ts, other) + (if other == associateId then 1 else 0)
  {
    AcceptWorkloadTotals(ts, ts[k].id, associateId, other);
    UniqueIdCounts(ts, k, other);
  }

  lemma {:induction false} UniqueIdCounts(ts: seq<Task>, k: nat, associateId: string)
    requires k < |ts| && IsUnassigned(ts[k])
    requires forall i, j :: 0 <= i < j < |ts| ==> ts[i].id != ts[j].id
    ensures CountWithId(ts, ts[k].id) == 1
    ensures CountWithIdFor(ts, ts[k].id, associateId) == 0
  {
    var n := |ts| - 1;
    if k == n {
      NoIdIn(ts[..n], ts[k].id, associateId);
    } else {
      UniqueIdCounts(ts[..n], k, associateId);
    }
  }

  lemma {:induction false} NoIdIn(ts: seq<Task>, taskId: string, associateId: string)
    requires forall i :: 0 <= i < |ts| ==> ts[i].id != taskId
    ensures CountWithId(ts, taskId) == 0 && CountWithIdFor(ts, taskId, associateId) == 0
  {
    if |ts| > 0 {
      NoIdIn(ts[..|ts| - 1], taskId, associateId);
    }
  }
}
