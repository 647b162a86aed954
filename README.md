# Smart Task Prioritization dashboard: the task and batching core in Dafny

The dashboard shows tickets from Jira (ids `ZA-…`) and ServiceNow (ids
`INC…`, `TASK…`, `PRB…`). Tickets appear in two views: unassigned (status New
and no assignee) and assigned (everything else). Per associate, the dashboard
derives a workload: the number of In Progress tickets assigned to them, split
by ticket kind. An "AI analysis" pass sends the unassigned tickets to a
generative-AI provider in batches of ten. The provider's recommendations
(suggested assignee, priority score and reasoning) are merged back into the
collection. The user can then accept a suggestion, which assigns the ticket
and moves it to In Progress.

This project models that core as values and proves its properties:

- `wrappers.dfy` and `seqs.dfy`: `Option`/`Result`, and the `Flatten` and
  `Map` helpers on sequences.
- `types.dfy`: the records of `types.ts` (Task, Associate, WorkloadBreakdown,
  ProcessedAssociate). It also holds `Recommendation`, the service's
  `AIPrioritizationResult` (services/geminiService.ts:10-15).
- `gemini_service.dfy`: the batch orchestrator of `services/geminiService.ts`.
  It covers the partitioning loop, the payload projections, and the
  all-or-nothing join that concatenates replies in batch order. The AI
  provider is a function parameter from a request payload to a reply
  (`CallFailed`, `Malformed`, or `Parsed` with an optional recommendations
  list).
- `workload.dfy`: the workload derivation of `App.tsx`, as loops proved
  against counting functions.
- `task_views.dfy`: the rank tables, the two complementary filters, the
  comparators, and the stable sort behind each view.
- `suggestions.dfy`: the reset of suggestion fields, the in-place merge of
  recommendations (first task with the id, last write wins, unknown ids
  ignored) and the accept transition.
- `analysis.dfy`: `handleRunAIAnalysis`, which composes the early return,
  the reset, the service call and the merge.
- `workload_chart.dfy`: `getWorkloadColor`.

The task collection is a `seq<Task>` passed in and returned, as the source
replaces its React state wholesale. The merge copies the collection into an
array and updates it in place, as the source does.

### Behaviour a reader might not expect (the model follows the code)

- Accepting a suggestion clears `suggestedTo` but keeps `aiPriorityScore` and
  `aiReasoning` (App.tsx:144). One might expect accepting to clear all three
  suggestion fields.
- A failed AI pass still leaves every suggestion cleared: the reset is queued
  before the service is called (App.tsx:113-115). One might expect a failed
  pass to leave the tasks as they were. `Analysis.FailedPassAppliesNothing`
  states what the code does.
- A parsed reply with no `recommendations` field contributes nothing and is
  not an error (services/geminiService.ts:104). One might expect a missing
  field to fail the pass.
- `!task.assignedTo` is JavaScript truthiness, so a task whose assignee is the
  empty string counts as unassigned (`Types.HasAssignee`).

## Model

| member | source | states |
|---|---|---|
| `GeminiService.AssociateProjectionExact` | services/geminiService.ts:44 | two associates give the same payload iff they agree on id, name, skills and total workload |
| `GeminiService.TaskProjectionExact` | services/geminiService.ts:47 | two tasks give the same payload iff they agree on id, title, priority, complexity, business impact, dependencies and module; description, status, assignee and AI fields are never sent |
| `GeminiService.BuildRequest` | services/geminiService.ts:19-53 | a batch payload holds, in order, the projection of every associate and of every batch task, so only the fields the projection lemmas name reach the provider |
| `GeminiService.ChunksCount` | services/geminiService.ts:61-64 | n tasks make ceil(n/10) batches |
| `GeminiService.ChunksShape` | services/geminiService.ts:62-63 | every batch has 1 to 10 tasks; every batch but the last has exactly 10 |
| `GeminiService.ChunksFlatten` | services/geminiService.ts:62-63 | concatenating the batches gives back the input exactly |
| `GeminiService.MakeBatches` | services/geminiService.ts:61-64 | the `for` loop stepping by BATCH_SIZE produces exactly the slices `tasks[i..min(i+10,n)]` |
| `GeminiService.CollectRecommendations` | services/geminiService.ts:100-109 | the reply loop fails with the fixed message if any reply failed, else returns every reply's recommendations concatenated in order, a reply without `recommendations` adding nothing |
| `GeminiService.GetAIPrioritizationAndAssignments` | services/geminiService.ts:56-115 | batching, one provider call per batch in order, then the join |
| `GeminiServiceProperties.RequestTaskIds` | services/geminiService.ts:61-68 | the task ids across all request payloads, in submission order, are exactly the input's ids: none lost, repeated or reordered |
| `GeminiServiceProperties.OrchestrateEmpty` | services/geminiService.ts:61-109 | empty input makes no request and yields an empty list, whatever the provider |
| `GeminiServiceProperties.OrchestrateFailsAsUnit` | services/geminiService.ts:98-114 | the operation fails iff some batch's reply fails, and always with "Failed to get AI assignment suggestions."; otherwise it returns every reply's contribution concatenated in submission order |
| `GeminiServiceProperties.OrchestratePreservesOrder` | services/geminiService.ts:98-109 | against a provider answering each task of each batch, the joined list names the input tasks in input order |
| `GeminiServiceProperties.TwentyThreeTasks` | services/geminiService.ts:61-64 | 23 tasks go out as batches of 10, 10 and 3 |
| `Workload.TotalCountsAssignedInProgress` | App.tsx:44-47 | an associate's total is the number of positions holding an In Progress task assigned to that id; other tasks add nothing |
| `Workload.KindCountsPartitionTotal` | App.tsx:46-56 | each counted task falls in exactly one kind (Jira, incident, task, problem, or none), chosen by the first matching prefix |
| `Workload.SubcountsBounded` | App.tsx:47-56 | jira + incident + task + problem is at most the total |
| `Workload.ComputeWorkload` | App.tsx:36-57 | the counting loop yields exactly the total and the four per-kind counts |
| `Workload.AssociatesWithWorkload` | App.tsx:34-60 | one entry per associate, in input order, with id, name and skills kept and the workload recomputed |
| `TaskViews.PriorityRank` | App.tsx:12-18 | priority ranks lie in 1..5 |
| `TaskViews.StatusRank` | App.tsx:20-24 | status ranks lie in 0..2 |
| `TaskViews.RanksAreStrictOrders` | App.tsx:12-24 | Highest > High > Medium > Low > Lowest and New < In Progress < Done, and no two levels share a rank |
| `TaskViews.ViewsPartition` | App.tsx:63-81 | the unassigned and assigned filters are exact complements: together the views hold every task exactly as often as the collection |
| `TaskViews.SortDescCorrect` | App.tsx:66-77 | the sort returns a permutation of its input, non-increasing in the key, with equal keys in input order |
| `TaskViews.UnassignedCompareIsKeyOrder` | App.tsx:66-77 | the unassigned comparator orders `a` first exactly when its key (AI score, missing as 0; priority rank; complexity; unknown key falls back to AI score) is larger |
| `TaskViews.UnassignedViewCorrect` | App.tsx:63-78 | the unassigned view is a permutation of the unassigned tasks, non-increasing in the chosen key, stable on ties |
| `TaskViews.AssigneeNameOfUniqueId` | App.tsx:90-91 | with unique associate ids, the lookup gives the name (or "zzz" when empty) of the one associate holding the assignee id, wherever it stands in the roster |
| `TaskViews.AssigneeNameMissing` | App.tsx:90-91 | when no associate holds the assignee id, the lookup gives "zzz" |
| `TaskViews.AssignedCompareIsKeyOrder` | App.tsx:83-96 | the assigned comparator orders by status rank ascending (also the fallback), priority rank descending, or assignee name ascending |
| `TaskViews.AssignedViewCorrect` | App.tsx:80-99 | the assigned view is a permutation of the other tasks, ordered as its comparator says, stable on ties |
| `Suggestions.ResetSuggestions` | App.tsx:113-115 | the reset keeps the length and every non-AI field and clears all three suggestion fields of every task |
| `Suggestions.ResetIdempotent` | App.tsx:114 | resetting twice equals resetting once |
| `Suggestions.ResetKeepsViewsAndWorkload` | App.tsx:113-115 | every task is unassigned after the reset iff it was before; each view of the reset collection is the reset of the old view, in the same order; no workload changes |
| `Suggestions.FirstIndex` | App.tsx:123 | `findIndex` yields the first position with the id, or none when no task has it |
| `Suggestions.FindIndex` | App.tsx:123 | the search loop returns the first index with the id, or -1 exactly when there is none |
| `Suggestions.MergeKeepsIds` | App.tsx:121-129 | the merge never changes the length or any task's id |
| `Suggestions.MergeAllAt` | App.tsx:120-131 | after the merge, the first task with an id carries the last recommendation for it; every other task is unchanged |
| `Suggestions.MergeKeepsOthers` | App.tsx:120-131 | the merge keeps the length and every non-AI field; a task no recommendation names is unchanged |
| `Suggestions.MergeIgnoresUnknown` | App.tsx:123-124 | a recommendation for an id no task has changes nothing |
| `Suggestions.LastWriteWins` | App.tsx:122-129 | of two recommendations for the same id, the earlier one has no effect, whatever was sent between them; sending one twice equals sending it once |
| `Suggestions.MergeIdempotent` | App.tsx:120-131 | merging the same recommendations again changes nothing |
| `Suggestions.MergeRecommendations` | App.tsx:120-131 | copying the collection and overwriting fields in place yields the merge of all recommendations in list order |
| `Suggestions.AcceptSuggestion` | App.tsx:140-149 | every task with the id gets the assignee, In Progress and no suggested assignee, keeping its AI score and reasoning and all other fields; other tasks are unchanged |
| `Suggestions.AcceptLeavesUnassignedView` | App.tsx:140-148 | after accepting, the unassigned view is the previous view with the tasks carrying the accepted id removed, in the same order and multiplicity |
| `Suggestions.AcceptWorkloadTotals` | App.tsx:140-148 | accepting moves every task with the id into the accepting associate's total and out of every other associate's |
| `Suggestions.AcceptAddsOneTask` | App.tsx:140-148 | with unique ids, accepting an unassigned task adds one to the accepting associate's total and leaves all others unchanged |
| `Analysis.RunAIAnalysis` | App.tsx:101-138 | the pass: early return with a notice, or reset then service call then merge, with the error and sort key it sets |
| `Analysis.NothingToAnalyze` | App.tsx:102-107 | with no New unassigned task the tasks and sort key stay unchanged and the notice is set, whatever the provider |
| `Analysis.AnalysisKeepsCore` | App.tsx:113-131 | a pass keeps the length and every task's non-AI fields |
| `Analysis.FailedPassAppliesNothing` | App.tsx:113-134 | if any batch fails, the error is the service's message and no task carries a suggestion, not even tasks from batches that succeeded |
| `Analysis.SuccessfulPassClearsStale` | App.tsx:113-131 | after a successful pass, a task no recommendation names carries no suggestion |
| `Analysis.MergeSuggestsExactlyNamed` | App.tsx:113-131 | merging into the reset collection recommendations that name exactly the unassigned tasks leaves suggestions on exactly those tasks |
| `Analysis.EchoingPassSuggestsExactlyUnassigned` | App.tsx:101-131 | with unique ids and a provider answering every task it is sent, exactly the previously unassigned tasks carry a suggested assignee after the pass |
| `WorkloadChart.WorkloadColor` | components/WorkloadChart.tsx:17-21 | red iff workload >= 8, amber iff 5 <= workload < 8, green iff workload < 5 |
| `WorkloadChart.ColorMonotone` | components/WorkloadChart.tsx:17-21 | a higher workload never maps to a milder colour |

## Left out

- The Gemini SDK call, the model name and its generation config (services/geminiService.ts:1, 8, 67-96) are foreign library and network I/O. They are the `provider` parameter. It is a function, so the model assumes the same payload always gets the same reply.
- The API-key check at module load (services/geminiService.ts:4-6) reads the process environment.
- Prompt prose, `JSON.stringify` and `JSON.parse` (services/geminiService.ts:22-51, 102-103) are library text handling. Only the projected fields and the failure of a malformed reply (`Malformed`) are modelled.
- A truthy `recommendations` value that is not an array is not modelled; the provider's declared schema (services/geminiService.ts:75-93) rules it out. The spread at services/geminiService.ts:105 would copy a string character by character and throw on a non-iterable value.
- `Promise.all` concurrency (services/geminiService.ts:98): the calls are modelled as issued in order and joined all-or-nothing. A call failure and a parse failure reach the same catch and are not told apart.
- `console.error` (services/geminiService.ts:112) is logging.
- React state plumbing: `useState`, `useMemo`, `useCallback`, the loading flag and the 3-second timer that clears the notice (App.tsx:28-32, 105, 109, 135-137).
- Aliasing: the source's merge writes to task objects that the previous state array also references. The model works on values, so the previous collection is not modelled as changing too.
- `Array.prototype.sort` is a library sort that is specified to be stable. It is modelled as a stable insertion sort on sequences (`TaskViews.SortDesc`), not in place.
- `localeCompare` (App.tsx:92) is locale-dependent collation. It is the `collate` parameter, an arbitrary rank of names.
- JSX rendering: App.tsx:151-265, the other components, and the chart wiring in components/WorkloadChart.tsx:23-75.
- Roster order: the render sorts the memoised roster in place by name (App.tsx:253-254). The roster that `handleRunAIAnalysis` captures and sends (App.tsx:118) is therefore in name order from the first render on. The assignee lookup (App.tsx:90-91) runs on the roster the memo at App.tsx:34-60 has just rebuilt in fixture order whenever the tasks change, before the render sorts it. It sees name order only on renders where just the sort key changed. With unique associate ids, as in data/associates.ts, the order does not change the lookup's result (`TaskViews.AssigneeNameOfUniqueId`, `TaskViews.AssigneeNameMissing`). `Analysis.RunAIAnalysis` and `TaskViews.AssignedView` take the associates in the order their caller passes, so either order is an input they accept. The in-place reordering of the shared array by the render is not modelled.
- data/associates.ts and data/tasks.ts are fixture data. data/tasks.ts is not part of this model.
- Numbers (complexity, business impact, AI score, workload) are modelled as mathematical integers. Fractions and `NaN` (for which `|| 0` also gives 0) are not modelled.
- `suggestedTo`'s `undefined` and `null` are both `None`: no modelled code tells them apart.
