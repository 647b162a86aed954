/** The two task lists App.tsx shows: the unassigned view (status New and
    no assignee) and the assigned view (everything else), each filtered out
    of the task collection and sorted by the key the user picked. The
    source sorts with `Array.prototype.sort`, which is stable; a comparator
    `(a, b) => key(b) - key(a)` sorts by key, largest first. */
module TaskViews {
  import opened Wrappers
  import opened Types

  // ---------------------------------------------------------------------------
  // Rank tables

  function PriorityRank(p: TaskPriority): (r: int)
    ensures 1 <= r <= 5
  {
    match p
    case Highest => 5
    case High => 4
    case Medium => 3
    case Low => 2
    case Lowest => 1
  }

  function StatusRank(s: TaskStatus): (r: int)
    ensures 0 <= r <= 2
  {
    match s
    case New => 0
    case InProgress => 1
    case Done => 2
  }

  /** The ranks follow the enumerations' own order, with no two levels
      sharing a rank. */
  lemma RanksAreStrictOrders(p: TaskPriority, q: TaskPriority, s: TaskStatus, u: TaskStatus)
    ensures PriorityRank(p) == PriorityRank(q) <==> p == q
    ensures StatusRank(s) == StatusRank(u) <==> s == u
    ensures PriorityRank(Highest) > PriorityRank(High) > PriorityRank(Medium) > PriorityRank(Low) > PriorityRank(Lowest)
    ensures StatusRank(New) < StatusRank(InProgress) < StatusRank(Done)
  {
  }

  // ---------------------------------------------------------------------------
  // Filters

  /** `task.status === New && !task.assignedTo` */
  predicate IsUnassigned(t: Task)
  {
    t.status == New && !HasAssignee(t)
  }

  /** `task.status !== New || task.assignedTo` */
  predicate IsInAssignedView(t: Task)
  {
    t.status != New || HasAssignee(t)
  }

  function Filter(p: Task -> bool, s: seq<Task>): seq<Task>
  {
    if |s| == 0 then [] else (if p(s[0]) then [s[0]] else []) + Filter(p, s[1..])
  }

  lemma {:induction false} FilterMembers(p: Task -> bool, s: seq<Task>)
    ensures forall t :: t in Filter(p, s) <==> t in s && p(t)
    ensures multiset(Filter(p, s)) <= multiset(s)
  {
    if |s| > 0 {
      FilterMembers(p, s[1..]);
      assert s == [s[0]] + s[1..];
    }
  }

  lemma {:induction false} FilterNone(p: Task -> bool, s: seq<Task>)
    requires forall t :: t in s ==> !p(t)
    ensures Filter(p, s) == []
  {
    if |s| > 0 {
      assert s[0] in s;
      assert forall t :: t in s[1..] ==> t in s;
      FilterNone(p, s[1..]);
    }
  }

  function UnassignedTasks(ts: seq<Task>): seq<Task>
  {
    Filter(IsUnassigned, ts)
  }

  function AssignedTasks(ts: seq<Task>): seq<Task>
  {
    Filter(IsInAssignedView, ts)
  }

  /** The two filters are exact complements: every task of the collection
      appears in exactly one of the two views, as often as in the collection. */
  lemma {:induction false} ViewsPartition(ts: seq<Task>)
    ensures forall t :: IsUnassigned(t) <==> !IsInAssignedView(t)
    ensures multiset(UnassignedTasks(ts)) + multiset(AssignedTasks(ts)) == multiset(ts)
    ensures |UnassignedTasks(ts)| + |AssignedTasks(ts)| == |ts|
  {
    if |ts| > 0 {
      ViewsPartition(ts[1..]);
      assert ts == [ts[0]] + ts[1..];
      assert multiset(ts) == multiset{ts[0]} + multiset(ts[1..]);
    }
    assert |multiset(ts)| == |ts|;
    assert |multiset(UnassignedTasks(ts))| == |UnassignedTasks(ts)|;
    assert |multiset(AssignedTasks(ts))| == |AssignedTasks(ts)|;
  }

  // ---------------------------------------------------------------------------
  // Stable sort by a key, largest key first

  function Insert(key: Task -> int, x: Task, s: seq<Task>): seq<Task>
  {
    if |s| == 0 || key(x) >= key(s[0]) then [x] + s
    else [s[0]] + Insert(key, x, s[1..])
  }

  function SortDesc(key: Task -> int, s: seq<Task>): seq<Task>
  {
    if |s| == 0 then [] else Insert(key, s[0], SortDesc(key, s[1..]))
  }

  ghost predicate SortedDesc(key: Task -> int, s: seq<Task>)
  {
    forall i, j :: 0 <= i < j < |s| ==> key(s[i]) >= key(s[j])
  }

  /** The tasks of `s` whose key is `v`, in order. */
  function WithKey(key: Task -> int, v: int, s: seq<Task>): seq<Task>
  {
    if |s| == 0 then [] else (if key(s[0]) == v then [s[0]] else []) + WithKey(key, v, s[1..])
  }

  /** Adjacent keys never increase. */
  predicate Descending(key: Task -> int, s: seq<Task>)
  {
    |s| <= 1 || (key(s[0]) >= key(s[1]) && Descending(key, s[1..]))
  }

  lemma {:induction false} DescendingIsSorted(key: Task -> int, s: seq<Task>)
    requires Descending(key, s)
    ensures SortedDesc(key, s)
  {
    if |s| > 1 {
      DescendingIsSorted(key, s[1..]);
      forall j | 1 <= j < |s|
        ensures key(s[0]) >= key(s[j])
      {
        assert s[1..][0] == s[1];
        if j > 1 {
          assert s[1..][j - 1] == s[j];
        }
      }
      forall i, j | 0 <= i < j < |s|
        ensures key(s[i]) >= key(s[j])
      {
        if i > 0 {
          assert s[1..][i - 1] == s[i] && s[1..][j - 1] == s[j];
        }
      }
    }
  }

  lemma {:induction false} InsertPermutes(key: Task -> int, x: Task, s: seq<Task>)
    ensures multiset(Insert(key, x, s)) == multiset(s) + multiset{x}
  {
    if |s| > 0 && key(x) < key(s[0]) {
      InsertPermutes(key, x, s[1..]);
      assert s == [s[0]] + s[1..];
    }
  }

  lemma {:induction false} InsertDescending(key: Task -> int, x: Task, s: seq<Task>)
    requires Descending(key, s)
    ensures Descending(key, Insert(key, x, s))
    ensures |Insert(key, x, s)| == |s| + 1
    ensures Insert(key, x, s)[0] == (if |s| == 0 || key(x) >= key(s[0]) then x else s[0])
  {
    if |s| > 0 && key(x) < key(s[0]) {
      var rest := Insert(key, x, s[1..]);
      InsertDescending(key, x, s[1..]);
      assert Insert(key, x, s) == [s[0]] + rest;
      assert ([s[0]] + rest)[1..] == rest;
      if |s| > 1 {
        assert s[1..][0] == s[1];
      }
    } else {
      assert ([x] + s)[1..] == s;
    }
  }

  /** Inserting keeps the relative order of equal keys, with the inserted
      task first among its equals. */
  lemma {:induction false} InsertStable(key: Task -> int, v: int, x: Task, s: seq<Task>)
    ensures WithKey(key, v, Insert(key, x, s)) ==
      (if key(x) == v then [x] else []) + WithKey(key, v, s)
  {
    var px := if key(x) == v then [x] else [];
    if |s| == 0 || key(x) >= key(s[0]) {
      var r := [x] + s;
      assert Insert(key, x, s) == r;
      assert r[0] == x && r[1..] == s;
      assert WithKey(key, v, r) == px + WithKey(key, v, r[1..]);
    } else {
      var rest := Insert(key, x, s[1..]);
      var r := [s[0]] + rest;
      var p0 := if key(s[0]) == v then [s[0]] else [];
      assert Insert(key, x, s) == r;
      assert r[0] == s[0] && r[1..] == rest;
      InsertStable(key, v, x, s[1..]);
      assert WithKey(key, v, r) == p0 + WithKey(key, v, rest);
      assert WithKey(key, v, rest) == px + WithKey(key, v, s[1..]);
      assert p0 == [] || px == [];
      assert WithKey(key, v, s) == p0 + WithKey(key, v, s[1..]);
      calc {
        WithKey(key, v, r);
        p0 + (px + WithKey(key, v, s[1..]));
        { assert p0 + px == px + p0; }
        px + (p0 + WithKey(key, v, s[1..]));
      }
    }
  }

  /** The sorted list is a permutation of its input, ordered by key, largest
      first, and tasks with equal keys keep their input order. */
  lemma SortDescCorrect(key: Task -> int, s: seq<Task>)
    ensures multiset(SortDesc(key, s)) == multiset(s)
    ensures SortedDesc(key, SortDesc(key, s))
    ensures forall v :: WithKey(key, v, SortDesc(key, s)) == WithKey(key, v, s)
  {
    SortDescPermutes(key, s);
    SortDescDescending(key, s);
    DescendingIsSorted(key, SortDesc(key, s));
    SortDescStable(key, s);
  }

  lemma {:induction false} SortDescPermutes(key: Task -> int, s: seq<Task>)
    ensures multiset(SortDesc(key, s)) == multiset(s)
  {
    if |s| > 0 {
      SortDescPermutes(key, s[1..]);
      InsertPermutes(key, s[0], SortDesc(key, s[1..]));
      assert s == [s[0]] + s[1..];
    }
  }

  lemma {:induction false} SortDescDescending(key: Task -> int, s: seq<Task>)
    ensures Descending(key, SortDesc(key, s))
  {
    if |s| > 0 {
      SortDescDescending(key, s[1..]);
      InsertDescending(key, s[0], SortDesc(key, s[1..]));
    }
  }

  lemma {:induction false} SortDescStable(key: Task -> int, s: seq<Task>)
    ensures forall v :: WithKey(key, v, SortDesc(key, s)) == WithKey(key, v, s)
  {
    if |s| > 0 {
      SortDescStable(key, s[1..]);
      forall v
        ensures WithKey(key, v, SortDesc(key, s)) == WithKey(key, v, s)
      {
        InsertStable(key, v, s[0], SortDesc(key, s[1..]));
      }
    }
  }

  // ---------------------------------------------------------------------------
  // The unassigned view

  /** `aiPriorityScore || 0` */
  function Score(t: Task): int
  {
    if t.aiPriorityScore.Some? then t.aiPriorityScore.value else 0
  }

  /** The key behind each case of the unassigned comparator; any key not
      listed falls back to the AI score. */
  function UnassignedKey(sortKey: string, t: Task): int
  {
    if sortKey == "priority" then PriorityRank(t.priority)
    else if sortKey == "complexity" then t.complexity
    else Score(t)
  }

  /** The unassigned comparator, case by case as written. */
  function UnassignedCompare(sortKey: string, a: Task, b: Task): int
  {
    if sortKey == "aiPriorityScore" then Score(b) - Score(a)
    else if sortKey == "priority" then PriorityRank(b.priority) - PriorityRank(a.priority)
    else if sortKey == "complexity" then b.complexity - a.complexity
    else Score(b) - Score(a)
  }

  /** The comparator puts `a` first exactly when its key is larger. */
  lemma UnassignedCompareIsKeyOrder(sortKey: string, a: Task, b: Task)
    ensures UnassignedCompare(sortKey, a, b) < 0 <==> UnassignedKey(sortKey, a) > UnassignedKey(sortKey, b)
    ensures UnassignedCompare(sortKey, a, b) == 0 <==> UnassignedKey(sortKey, a) == UnassignedKey(sortKey, b)
  {
  }

  function UnassignedKeyFn(sortKey: string): Task -> int
  {
    t => UnassignedKey(sortKey, t)
  }

  function UnassignedView(ts: seq<Task>, sortKey: string): seq<Task>
  {
    SortDesc(UnassignedKeyFn(sortKey), UnassignedTasks(ts))
  }

  /** The unassigned view holds exactly the unassigned tasks (a permutation
      of the filtered list), is non-increasing in the chosen key, and keeps
      tasks with equal keys in collection order. */
  lemma UnassignedViewCorrect(ts: seq<Task>, sortKey: string)
    ensures multiset(UnassignedView(ts, sortKey)) == multiset(UnassignedTasks(ts))
    ensures forall v ::
      WithKey(UnassignedKeyFn(sortKey), v, UnassignedView(ts, sortKey)) ==
      WithKey(UnassignedKeyFn(sortKey), v, UnassignedTasks(ts))
    ensures forall t :: t in UnassignedView(ts, sortKey) <==> t in ts && IsUnassigned(t)
    ensures var r := UnassignedView(ts, sortKey);
      && (sortKey == "priority" ==>
            forall i, j :: 0 <= i < j < |r| ==> PriorityRank(r[i].priority) >= PriorityRank(r[j].priority))
      && (sortKey == "complexity" ==>
            forall i, j :: 0 <= i < j < |r| ==> r[i].complexity >= r[j].complexity)
      && (sortKey != "priority" && sortKey != "complexity" ==>
            forall i, j :: 0 <= i < j < |r| ==> Score(r[i]) >= Score(r[j]))
  {
    var key := UnassignedKeyFn(sortKey);
    var r := UnassignedView(ts, sortKey);
    SortDescCorrect(key, UnassignedTasks(ts));
    FilterMembers(IsUnassigned, ts);
    forall t
      ensures t in r <==> t in UnassignedTasks(ts)
    {
      assert t in r <==> t in multiset(r);
    }
    forall i, j | 0 <= i < j < |r|
      ensures UnassignedKey(sortKey, r[i]) >= UnassignedKey(sortKey, r[j])
    {
      assert key(r[i]) >= key(r[j]);
    }
  }

  // ---------------------------------------------------------------------------
  // The assigned view

  /** The name shown for a task's assignee: the first associate whose id
      equals `assignedTo`, or "zzz" when there is none or the name is empty. */
  function AssigneeName(associates: seq<ProcessedAssociate>, t: Task): string
  {
    if |associates| == 0 then "zzz"
    else if t.assignedTo == Some(associates[0].id) then
      (if associates[0].name != "" then associates[0].name else "zzz")
    else AssigneeName(associates[1..], t)
  }

  /** With unique associate ids, the lookup gives the name of the one
      associate holding the task's assignee id, wherever it stands in the
      roster, so the roster's order does not change the result. */
  lemma {:induction false} AssigneeNameOfUniqueId(associates: seq<ProcessedAssociate>, t: Task, j: nat)
    requires j < |associates| && t.assignedTo == Some(associates[j].id)
    requires forall a, b :: 0 <= a < b < |associates| ==> associates[a].id != associates[b].id
    ensures AssigneeName(associates, t) == if associates[j].name != "" then associates[j].name else "zzz"
  {
    if j > 0 {
      assert associates[0].id != associates[j].id;
      AssigneeNameOfUniqueId(associates[1..], t, j - 1);
    }
  }

  /** When no associate holds the task's assignee id, the name is "zzz". */
  lemma {:induction false} AssigneeNameMissing(associates: seq<ProcessedAssociate>, t: Task)
    requires forall j :: 0 <= j < |associates| ==> t.assignedTo != Some(associates[j].id)
    ensures AssigneeName(associates, t) == "zzz"
  {
    if |associates| > 0 {
      AssigneeNameMissing(associates[1..], t);
    }
  }

  /** The key behind each case of the assigned comparator. `collate` stands
      for `localeCompare`: a rank of names, smaller first. Keys sorted
      ascending in the source are negated here. */
  function AssignedKey(sortKey: string, associates: seq<ProcessedAssociate>, collate: string -> int, t: Task): int
  {
    if sortKey == "priority" then PriorityRank(t.priority)
    else if sortKey == "assignee" then -collate(AssigneeName(associates, t))
    else -StatusRank(t.status)
  }

  /** The assigned comparator, case by case as written. */
  function AssignedCompare(sortKey: string, associates: seq<ProcessedAssociate>, collate: string -> int, a: Task, b: Task): int
  {
    if sortKey == "status" then StatusRank(a.status) - StatusRank(b.status)
    else if sortKey == "priority" then PriorityRank(b.priority) - PriorityRank(a.priority)
    else if sortKey == "assignee" then collate(AssigneeName(associates, a)) - collate(AssigneeName(associates, b))
    else StatusRank(a.status) - StatusRank(b.status)
  }

  lemma AssignedCompareIsKeyOrder(sortKey: string, associates: seq<ProcessedAssociate>, collate: string -> int, a: Task, b: Task)
    ensures AssignedCompare(sortKey, associates, collate, a, b) < 0 <==>
      AssignedKey(sortKey, associates, collate, a) > AssignedKey(sortKey, associates, collate, b)
    ensures AssignedCompare(sortKey, associates, collate, a, b) == 0 <==>
      AssignedKey(sortKey, associates, collate, a) == AssignedKey(sortKey, associates, collate, b)
  {
  }

  function AssignedKeyFn(sortKey: string, associates: seq<ProcessedAssociate>, collate: string -> int): Task -> int
  {
    t => AssignedKey(sortKey, associates, collate, t)
  }

  function AssignedView(ts: seq<Task>, sortKey: string, associates: seq<ProcessedAssociate>, collate: string -> int): seq<Task>
  {
    SortDesc(AssignedKeyFn(sortKey, associates, collate), AssignedTasks(ts))
  }

  /** The assigned view holds exactly the other tasks and is ordered by
      status rank ascending (also the fallback), priority rank descending,
      or assignee name ascending; tasks with equal keys stay in collection
      order. */
  lemma AssignedViewCorrect(ts: seq<Task>, sortKey: string, associates: seq<ProcessedAssociate>, collate: string -> int)
    ensures multiset(AssignedView(ts, sortKey, associates, collate)) == multiset(AssignedTasks(ts))
    ensures forall v ::
      WithKey(AssignedKeyFn(sortKey, associates, collate), v, AssignedView(ts, sortKey, associates, collate)) ==
      WithKey(AssignedKeyFn(sortKey, associates, collate), v, AssignedTasks(ts))
    ensures forall t :: t in AssignedView(ts, sortKey, associates, collate) <==> t in ts && IsInAssignedView(t)
    ensures var r := AssignedView(ts, sortKey, associates, collate);
      && (sortKey == "priority" ==>
            forall i, j :: 0 <= i < j < |r| ==> PriorityRank(r[i].priority) >= PriorityRank(r[j].priority))
      && (sortKey == "assignee" ==>
            forall i, j :: 0 <= i < j < |r| ==>
              collate(AssigneeName(associates, r[i])) <= collate(AssigneeName(associates, r[j])))
      && (sortKey != "priority" && sortKey != "assignee" ==>
            forall i, j :: 0 <= i < j < |r| ==> StatusRank(r[i].status) <= StatusRank(r[j].status))
  {
    var key := AssignedKeyFn(sortKey, associates, collate);
    var r := AssignedView(ts, sortKey, associates, collate);
    SortDescCorrect(key, AssignedTasks(ts));
    FilterMembers(IsInAssignedView, ts);
    forall t
      ensures t in r <==> t in AssignedTasks(ts)
    {
      assert t in r <==> t in multiset(r);
    }
    forall i, j | 0 <= i < j < |r|
      ensures AssignedKey(sortKey, associates, collate, r[i]) >= AssignedKey(sortKey, associates, collate, r[j])
    {
      assert key(r[i]) >= key(r[j]);
    }
  }
}
