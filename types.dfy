/** The records of the dashboard: tickets, associates, workload breakdowns
    and the recommendations the AI provider returns. */
module Types {
  import opened Wrappers

  datatype TaskSource = Jira | ServiceNow

  datatype TaskPriority = Highest | High | Medium | Low | Lowest

  datatype TaskStatus = New | InProgress | Done

  /** A ticket. `moduleName` is the source's `module` field (a Dafny keyword).
      `suggestedTo` folds the source's `undefined` and `null` into `None`:
      nothing in the modelled code tells the two apart.
      Numbers (complexity, impact, AI score) are modelled as integers. */
  datatype Task = Task(
    id: string,
    title: string,
    description: string,
    source: TaskSource,
    priority: TaskPriority,
    status: TaskStatus,
    complexity: int,
    businessImpact: int,
    dependencies: seq<string>,
    assignedTo: Option<string>,
    moduleName: string,
    suggestedTo: Option<string>,
    aiPriorityScore: Option<int>,
    aiReasoning: Option<string>)

  /** An associate as loaded from the fixture data. */
  datatype Associate = Associate(id: string, name: string, skills: seq<string>, currentWorkload: int)

  /** Per-associate counts of In Progress tickets, total and by ticket kind. */
  datatype WorkloadBreakdown = WorkloadBreakdown(
    total: nat,
    jira: nat,
    serviceNowIncident: nat,
    serviceNowTask: nat,
    serviceNowProblem: nat)

  /** An associate whose workload was recomputed from the task list. */
  datatype ProcessedAssociate = ProcessedAssociate(
    id: string, name: string, skills: seq<string>, currentWorkload: WorkloadBreakdown)

  /** One element of the provider's `recommendations` array (the service's
      `AIPrioritizationResult`). */
  datatype Recommendation = Recommendation(
    taskId: string, suggestedAssociateId: string, reasoning: string, priorityScore: int)

  /** JavaScript truthiness of `task.assignedTo`: `null` and `""` are both falsy. */
  predicate HasAssignee(t: Task)
  {
    t.assignedTo.Some? && t.assignedTo.value != ""
  }

  /** The fields an AI pass never touches are equal. */
  predicate SameCore(a: Task, b: Task)
  {
    && a.id == b.id && a.title == b.title && a.description == b.description
    && a.source == b.source && a.priority == b.priority && a.status == b.status
    && a.complexity == b.complexity && a.businessImpact == b.businessImpact
    && a.dependencies == b.dependencies && a.assignedTo == b.assignedTo
    && a.moduleName == b.moduleName
  }
}
