/** The workload derivation of App.tsx (`associatesWithWorkload`): for each
    associate, the number of In Progress tickets assigned to them, and the
    same count split by ticket kind, read off the ticket id's prefix. */
module Workload {
  import opened Wrappers
  import opened Types

  /** The kind of ticket an id denotes; the first matching prefix decides. */
  datatype TicketKind = JiraIssue | Incident | ServiceTask | Problem | Unclassified

  predicate StartsWith(s: string, prefix: string)
  {
    |prefix| <= |s| && s[..|prefix|] == prefix
  }

  function Kind(id: string): TicketKind
  {
    if StartsWith(id, "ZA-") then JiraIssue
    else if StartsWith(id, "INC") then Incident
    else if StartsWith(id, "TASK") then ServiceTask
    else if StartsWith(id, "PRB") then Problem
    else Unclassified
  }

  /** A ticket counts towards an associate's workload when it is In Progress
      and assigned to exactly that associate id. */
  predicate CountsFor(t: Task, associateId: string)
  {
    t.status == InProgress && t.assignedTo == Some(associateId)
  }

  function InProgressCount(ts: seq<Task>, associateId: string): nat
  {
    if |ts| == 0 then 0
    else InProgressCount(ts[..|ts| - 1], associateId) + (if CountsFor(ts[|ts| - 1], associateId) then 1 else 0)
  }

  function KindCount(ts: seq<Task>, associateId: string, kind: TicketKind): nat
  {
    if |ts| == 0 then 0
    else
      var t := ts[|ts| - 1];
      KindCount(ts[..|ts| - 1], associateId, kind) + (if CountsFor(t, associateId) && Kind(t.id) == kind then 1 else 0)
  }

  /** The breakdown App.tsx derives for one associate. */
  function WorkloadOf(ts: seq<Task>, associateId: string): WorkloadBreakdown
  {
    WorkloadBreakdown(
      InProgressCount(ts, associateId),
      KindCount(ts, associateId, JiraIssue),
      KindCount(ts, associateId, Incident),
      KindCount(ts, associateId, ServiceTask),
      KindCount(ts, associateId, Problem))
  }

  /** The positions of the tickets that count for an associate. */
  ghost function CountedPositions(ts: seq<Task>, associateId: string): set<int>
  {
    set i | 0 <= i < |ts| && CountsFor(ts[i], associateId)
  }

  /** The total is the number of In Progress tickets assigned to the associate:
      New and Done tickets and other associates' tickets add nothing. */
  lemma {:induction false} TotalCountsAssignedInProgress(ts: seq<Task>, associateId: string)
    ensures WorkloadOf(ts, associateId).total == |CountedPositions(ts, associateId)|
  {
    if |ts| > 0 {
      var n := |ts| - 1;
      var front := ts[..n];
      TotalCountsAssignedInProgress(front, associateId);
      var before := CountedPositions(front, associateId);
      var after := CountedPositions(ts, associateId);
      if CountsFor(ts[n], associateId) {
        assert after == before + {n};
        assert n !in before;
      } else {
        assert after == before;
      }
    }
  }

  /** Every counted ticket is of exactly one kind, so the five kind counts
      (the four shown and the unclassified rest) add up to the total. */
  lemma {:induction false} KindCountsPartitionTotal(ts: seq<Task>, associateId: string)
    ensures InProgressCount(ts, associateId) ==
      KindCount(ts, associateId, JiraIssue) + KindCount(ts, associateId, Incident) +
      KindCount(ts, associateId, ServiceTask) + KindCount(ts, associateId, Problem) +
      KindCount(ts, associateId, Unclassified)
  {
    if |ts| > 0 {
      KindCountsPartitionTotal(ts[..|ts| - 1], associateId);
    }
  }

  /** jira + incident + task + problem never exceeds the total. */
  lemma SubcountsBounded(ts: seq<Task>, associateId: string)
    ensures var w := WorkloadOf(ts, associateId);
      w.jira + w.serviceNowIncident + w.serviceNowTask + w.serviceNowProblem <= w.total
  {
    KindCountsPartitionTotal(ts, associateId);
  }

  /** The counting `forEach` for one associate: one pass over the tickets,
      bumping the total and at most one kind counter per counted ticket. */
  method ComputeWorkload(ts: seq<Task>, associateId: string) returns (w: WorkloadBreakdown)
    ensures w == WorkloadOf(ts, associateId)
  {
    var total, jira, incident, task, problem := 0, 0, 0, 0, 0;
    var i := 0;
    while i < |ts|
      invariant 0 <= i <= |ts|
      invariant total == InProgressCount(ts[..i], associateId)
      invariant jira == KindCount(ts[..i], associateId, JiraIssue)
      invariant incident == KindCount(ts[..i], associateId, Incident)
      invariant task == KindCount(ts[..i], associateId, ServiceTask)
      invariant problem == KindCount(ts[..i], associateId, Problem)
    {
      var t := ts[i];
      assert ts[..i + 1][..i] == ts[..i];
      if t.status == InProgress && t.assignedTo == Some(associateId) {
        total := total + 1;
        if StartsWith(t.id, "ZA-") {
          jira := jira + 1;
        } else if StartsWith(t.id, "INC") {
          incident := incident + 1;
        } else if StartsWith(t.id, "TASK") {
          task := task + 1;
        } else if StartsWith(t.id, "PRB") {
          problem := problem + 1;
        }
      }
      i := i + 1;
    }
    assert ts[..i] == ts;
    w := WorkloadBreakdown(total, jira, incident, task, problem);
  }

  /** The associates with their recomputed workloads, in roster order. */
  function ProcessedAssociates(associates: seq<Associate>, ts: seq<Task>): seq<ProcessedAssociate>
  {
    seq(|associates|, i requires 0 <= i < |associates| =>
      ProcessedAssociate(associates[i].id, associates[i].name, associates[i].skills, WorkloadOf(ts, associates[i].id)))
  }

  /** `associatesData.map(...)`: one entry per associate, in input order, with
      id, name and skills kept and the fixture's workload number replaced. */
  method AssociatesWithWorkload(associates: seq<Associate>, ts: seq<Task>) returns (r: seq<ProcessedAssociate>)
    ensures r == ProcessedAssociates(associates, ts)
    ensures |r| == |associates|
    ensures forall i :: 0 <= i < |r| ==>
      r[i].id == associates[i].id && r[i].name == associates[i].name &&
      r[i].skills == associates[i].skills && r[i].currentWorkload == WorkloadOf(ts, associates[i].id)
  {
    r := [];
    var i := 0;
    while i < |associates|
      invariant 0 <= i <= |associates|
      invariant |r| == i
      invariant forall j :: 0 <= j < i ==>
        r[j].id == associates[j].id && r[j].name == associates[j].name &&
        r[j].skills == associates[j].skills && r[j].currentWorkload == WorkloadOf(ts, associates[j].id)
    {
      var a := associates[i];
      var w := ComputeWorkload(ts, a.id);
      r := r + [ProcessedAssociate(a.id, a.name, a.skills, w)];
      i := i + 1;
    }
  }
}
