/** The task handlers: always scoped to the caller's own tasks. A new task is always
    "pending"; the list is ordered by due date, then by the priority string descending. */
module TaskController {
  import opened Common
  import opened Text
  import opened Seqs
  import opened Pagination
  import opened TaskModel

  const TaskNotFound: string := "Task not found"

  /** The `relatedTo` object of a request body; kind "" stands for an absent `type`. */
  datatype RelatedBody = RelatedBody(kind: string, id: Option<Id>)

  /** Request body of createTask; "" stands for a missing (falsy) string. `status` is read
      by nobody and is not part of it. */
  datatype TaskBody = TaskBody(
    title: string,
    description: Option<string>,
    dueDate: string,
    priority: string,
    relatedTo: Option<RelatedBody>)

  datatype TaskQuery = TaskQuery(status: string, priority: string, page: Option<nat>, limit: Option<nat>)

  /** Request body of updateTask, applied as sent. */
  datatype TaskPatch = TaskPatch(
    title: Option<string>,
    description: Option<string>,
    dueDate: Option<string>,
    priority: Option<string>,
    status: Option<string>,
    relatedTo: Option<RelatedBody>,
    createdBy: Option<Id>)

  datatype TaskUpdate = TaskUpdate(
    title: Option<string>,
    description: Option<string>,
    dueDate: Option<int>,
    priority: Option<TaskPriority>,
    status: Option<TaskStatus>,
    relatedTo: Option<RelatedTo>,
    createdBy: Option<Id>)

  datatype TaskFilter = TaskFilter(id: Option<Id>, createdBy: Id, status: Option<string>, priority: Option<string>)

  datatype TaskPage = TaskPage(tasks: seq<Task>, pagination: PageInfo)

  predicate Matches(f: TaskFilter, t: Task) {
    && (f.id.None? || t.id == f.id.value)
    && t.fields.createdBy == f.createdBy
    && (f.status.None? || TaskStatusName(t.fields.status) == f.status.value)
    && (f.priority.None? || TaskPriorityName(t.fields.priority) == f.priority.value)
  }

  function MatchesFn(f: TaskFilter): Task -> bool {
    (t: Task) => Matches(f, t)
  }

  predicate Owns(c: Caller, t: Task) {
    t.fields.createdBy == c.id
  }

  predicate Selected(c: Caller, q: TaskQuery, t: Task) {
    && Owns(c, t)
    && (q.status == "" || TaskStatusName(t.fields.status) == q.status)
    && (q.priority == "" || TaskPriorityName(t.fields.priority) == q.priority)
  }

  function SelectedFn(c: Caller, q: TaskQuery): Task -> bool {
    (t: Task) => Selected(c, q, t)
  }

  function Matching(s: seq<Task>, c: Caller, q: TaskQuery): seq<Task> {
    Filter(s, SelectedFn(c, q))
  }

  // ---------------------------------------------------------------- the sort order

  /** Position of a priority under `priority: -1`, which compares the stored strings:
      "medium" > "low" > "high". */
  function SortRank(p: TaskPriority): nat {
    match p
    case Medium => 0
    case Low => 1
    case High => 2
  }

  /** The rank order is exactly the descending order of the priority strings. */
  lemma SortRankIsDescendingName(p: TaskPriority, q: TaskPriority)
    ensures SortRank(p) < SortRank(q) <==> StrLess(TaskPriorityName(q), TaskPriorityName(p))
  {
    assert StrLess("low", "medium");
    assert StrLess("high", "low");
    assert StrLess("high", "medium");
    assert !StrLess("medium", "low");
    assert !StrLess("low", "high");
    assert !StrLess("medium", "high");
    assert !StrLess("low", "low") && !StrLess("high", "high") && !StrLess("medium", "medium");
  }

  /** `sort({dueDate: 1, priority: -1})`: a may come before b. */
  predicate SortsBefore(a: Task, b: Task) {
    a.fields.dueDate < b.fields.dueDate
    || (a.fields.dueDate == b.fields.dueDate && SortRank(a.fields.priority) <= SortRank(b.fields.priority))
  }

  ghost predicate SortedTasks(s: seq<Task>) {
    forall i, j :: 0 <= i < j < |s| ==> SortsBefore(s[i], s[j])
  }

  function InsertTask(x: Task, s: seq<Task>): seq<Task> {
    if s == [] then [x]
    else if SortsBefore(x, s[0]) then [x] + s
    else [s[0]] + InsertTask(x, s[1..])
  }

  /** Inserting into a sorted sequence keeps it sorted and adds exactly the one task. */
  lemma {:induction false} InsertTaskSorted(x: Task, s: seq<Task>)
    requires SortedTasks(s)
    ensures SortedTasks(InsertTask(x, s))
    ensures multiset(InsertTask(x, s)) == multiset(s) + multiset{x}
  {
    if s == [] {
    } else if SortsBefore(x, s[0]) {
      assert forall j :: 0 <= j < |s| ==> SortsBefore(x, s[j]);
    } else {
      InsertTaskSorted(x, s[1..]);
      var rest := InsertTask(x, s[1..]);
      assert s == [s[0]] + s[1..];
      forall i | 0 <= i < |rest|
        ensures SortsBefore(s[0], rest[i])
      {
        assert rest[i] in multiset(rest);
        if rest[i] != x {
          assert rest[i] in multiset(s[1..]);
        }
      }
      assert InsertTask(x, s) == [s[0]] + rest;
    }
  }

  /** One order the store may return the matching tasks in: sorted by the keys. Among
      tasks with equal keys the store promises no order; this one is a single choice. */
  function SortTasks(s: seq<Task>): (r: seq<Task>)
    ensures SortedTasks(r)
    ensures multiset(r) == multiset(s)
  {
    if s == [] then []
    else
      assert s == [s[0]] + s[1..];
      InsertTaskSorted(s[0], SortTasks(s[1..]));
      InsertTask(s[0], SortTasks(s[1..]))
  }

  /** A page of a sorted sequence is sorted and holds only tasks of that sequence. */
  lemma PageOfSorted(s: seq<Task>, page: nat, limit: nat)
    requires page >= 1 && SortedTasks(s)
    ensures SortedTasks(PageSlice(s, page, limit))
    ensures multiset(PageSlice(s, page, limit)) <= multiset(s)
  {
    var lo := Min(Skip(page, limit), |s|);
    var hi := Min(Skip(page, limit) + limit, |s|);
    assert PageSlice(s, page, limit) == s[lo..hi];
    assert forall i :: 0 <= i < hi - lo ==> s[lo..hi][i] == s[lo + i];
    assert s == s[..lo] + s[lo..hi] + s[hi..];
  }

  predicate SameKey(a: Task, b: Task) {
    a.fields.dueDate == b.fields.dueDate && SortRank(a.fields.priority) == SortRank(b.fields.priority)
  }

  /** Exchanging a task for one with the same sort key keeps a sequence sorted. */
  lemma SwapSameKeySorted(u: seq<Task>, k: nat, x: Task)
    requires SortedTasks(u) && k < |u| && SameKey(u[k], x)
    ensures SortedTasks(u[k := x])
  {
  }

  lemma SwapMultiset(u: seq<Task>, k: nat, x: Task)
    requires k < |u|
    ensures multiset(u[k := x]) == multiset(u) - multiset{u[k]} + multiset{x}
  {
    assert u == u[..k] + [u[k]] + u[k + 1..];
    assert u[k := x] == u[..k] + [x] + u[k + 1..];
  }

  /** The first tasks of two sorted arrangements of the same tasks have the same key. */
  lemma FirstSameKey(s: seq<Task>, t: seq<Task>)
    requires SortedTasks(s) && SortedTasks(t) && multiset(s) == multiset(t) && s != []
    ensures t != [] && SameKey(s[0], t[0])
  {
    assert s[0] in multiset(t);
    assert t[0] in multiset(s);
  }

  lemma TailSorted(t: seq<Task>)
    requires SortedTasks(t) && t != []
    ensures SortedTasks(t[1..])
  {
    assert forall i :: 0 <= i < |t| - 1 ==> t[1..][i] == t[i + 1];
  }

  lemma DropFirstMultiset(s: seq<Task>)
    requires s != []
    ensures multiset(s[1..]) == multiset(s) - multiset{s[0]}
  {
    assert s == [s[0]] + s[1..];
  }

  /** The tail of t, with s's first task exchanged in for t's, is a sorted arrangement of
      the tail of s that agrees with t's tail on the keys. */
  lemma TailArrangement(s: seq<Task>, t: seq<Task>) returns (u': seq<Task>)
    requires SortedTasks(s) && SortedTasks(t) && multiset(s) == multiset(t) && s != []
    ensures |t| >= 1 && |u'| == |t| - 1
    ensures SortedTasks(u') && multiset(u') == multiset(s[1..])
    ensures forall i :: 0 <= i < |u'| ==> SameKey(u'[i], t[i + 1])
  {
    FirstSameKey(s, t);
    TailSorted(t);
    DropFirstMultiset(s);
    DropFirstMultiset(t);
    var u := t[1..];
    if s[0] == t[0] {
      u' := u;
    } else {
      u' := ExchangeFirst(s[0], t, u);
    }
  }

  lemma ExchangeFirst(x: Task, t: seq<Task>, u: seq<Task>) returns (u': seq<Task>)
    requires t != [] && u == t[1..] && SortedTasks(u) && x != t[0] && SameKey(x, t[0])
    requires x in multiset(t)
    ensures |u'| == |u|
    ensures SortedTasks(u') && multiset(u') == multiset(u) - multiset{x} + multiset{t[0]}
    ensures forall i :: 0 <= i < |u'| ==> SameKey(u'[i], t[i + 1])
  {
    DropFirstMultiset(t);
    assert x in multiset(u);
    var k :| 0 <= k < |u| && u[k] == x;
    SwapSameKeySorted(u, k, t[0]);
    SwapMultiset(u, k, t[0]);
    u' := u[k := t[0]];
    assert forall i :: 0 <= i < |u| ==> u[i] == t[i + 1];
  }

  /** Two sorted arrangements of the same tasks agree on the due date at every position:
      the order is fixed by the keys up to ties. */
  lemma {:induction false} SortedUniqueDueDates(s: seq<Task>, t: seq<Task>)
    requires SortedTasks(s) && SortedTasks(t) && multiset(s) == multiset(t)
    ensures |s| == |t|
    ensures forall i :: 0 <= i < |s| ==> s[i].fields.dueDate == t[i].fields.dueDate
  {
    assert |s| == |multiset(s)| == |multiset(t)| == |t|;
    if s != [] {
      FirstSameKey(s, t);
      var u' := TailArrangement(s, t);
      SortedUniqueDueDates(s[1..], u');
      forall i | 1 <= i < |s|
        ensures s[i].fields.dueDate == t[i].fields.dueDate
      {
        assert s[i] == s[1..][i - 1];
        assert SameKey(u'[i - 1], t[i]);
      }
    }
  }

  // ---------------------------------------------------------------- create

  /** `priority || "medium"`. */
  function PriorityOrDefault(s: string): string {
    if s == "" then TaskPriorityName(DefaultTaskPriority) else s
  }

  /** `if (relatedTo && relatedTo.id) taskData.relatedTo = relatedTo`. */
  predicate KeepsRelated(rel: Option<RelatedBody>) {
    rel.Some? && rel.value.id.Some?
  }

  /** The schema's check on a `relatedTo` object: its `type`, when present, must be "lead". */
  function CastRelated(b: RelatedBody): (r: Option<RelatedTo>)
    ensures r.Some? <==> b.kind == "" || b.kind == "lead"
    ensures r.Some? ==> r.value.id == b.id && (r.value.kind.Some? <==> b.kind != "")
  {
    if b.kind == "" then Some(RelatedTo(None, b.id))
    else match ParseRelatedKind(b.kind)
      case Some(k) => Some(RelatedTo(Some(k), b.id))
      case None => None
  }

  /** createTask. `toDate` is `new Date(dueDate)` (None for an invalid date, which the
      store refuses to cast). */
  method CreateTask(store: TaskCollection, user: Option<Caller>, body: TaskBody, toDate: string -> Option<int>)
    returns (r: Response<Task>)
    requires store.Valid()
    modifies store
    ensures store.Valid()
    ensures user.None? ==> r == Unauthorized(NotAuthenticated)
    ensures user.Some? && (body.title == "" || body.dueDate == "") ==>
      r == BadRequest("Title and due date are required")
    ensures r.Created? <==>
      && user.Some? && body.title != "" && body.dueDate != ""
      && toDate(body.dueDate).Some? && ParseTaskPriority(PriorityOrDefault(body.priority)).Some?
      && (KeepsRelated(body.relatedTo) ==> CastRelated(body.relatedTo.value).Some?)
    ensures r.Created? ==>
      && r.message == "Task created successfully"
      && store.tasks == old(store.tasks) + [r.body]
      && (forall i :: 0 <= i < |old(store.tasks)| ==> old(store.tasks)[i].id < r.body.id)
      && r.body.fields.title == body.title
      && r.body.fields.description == body.description
      && Some(r.body.fields.dueDate) == toDate(body.dueDate)
      && TaskPriorityName(r.body.fields.priority) == PriorityOrDefault(body.priority)
      && r.body.fields.status == Pending
      && r.body.fields.createdBy == user.value.id
      && (r.body.fields.relatedTo.Some? <==> KeepsRelated(body.relatedTo))
      && (KeepsRelated(body.relatedTo) ==> r.body.fields.relatedTo == CastRelated(body.relatedTo.value))
    ensures (&& user.Some? && body.title != "" && body.dueDate != ""
             && (|| toDate(body.dueDate).None? || ParseTaskPriority(PriorityOrDefault(body.priority)).None?
                 || (KeepsRelated(body.relatedTo) && CastRelated(body.relatedTo.value).None?)))
      ==> r == ServerError(GenericServerError)
    ensures !r.Created? ==> store.tasks == old(store.tasks)
    ensures r.ServerError? ==> r.message == GenericServerError
  {
    if user.None? {
      return Unauthorized(NotAuthenticated);
    }
    if body.title == "" || body.dueDate == "" {
      return BadRequest("Title and due date are required");
    }
    var due := toDate(body.dueDate);
    var priority := ParseTaskPriority(PriorityOrDefault(body.priority));
    if due.None? || priority.None? {
      return ServerError(GenericServerError);
    }
    var taskData := TaskFields(body.title, body.description, due.value, priority.value, Pending, None, user.value.id);
    if KeepsRelated(body.relatedTo) {
      var rel := CastRelated(body.relatedTo.value);
      if rel.None? {
        return ServerError(GenericServerError);
      }
      taskData := taskData.(relatedTo := rel);
    }
    var t := store.Insert(taskData);
    r := Created("Task created successfully", t);
  }

  // ---------------------------------------------------------------- list

  method BuildListFilter(c: Caller, q: TaskQuery) returns (f: TaskFilter)
    ensures f.id.None? && f.createdBy == c.id
    ensures forall t :: Matches(f, t) <==> Selected(c, q, t)
  {
    f := TaskFilter(None, c.id, None, None);
    if q.status != "" {
      f := f.(status := Some(q.status));
    }
    if q.priority != "" {
      f := f.(priority := Some(q.priority));
    }
  }

  /** getTasks: the caller's selected tasks in due-date order, one page of them. */
  method GetTasks(store: TaskCollection, user: Option<Caller>, q: TaskQuery) returns (r: Response<TaskPage>)
    requires q.page.GetOr(DefaultPage) >= 1 && q.limit.GetOr(DefaultLimit) >= 1
    ensures user.None? <==> r.Unauthorized?
    ensures user.None? ==> r.message == NotAuthenticated
    ensures user.Some? ==>
      var page := q.page.GetOr(DefaultPage);
      var limit := q.limit.GetOr(DefaultLimit);
      var matching := Matching(store.tasks, user.value, q);
      && r.Ok?
      && r.body.tasks == PageSlice(SortTasks(matching), page, limit)
      && r.body.pagination == Paginate(page, limit, |matching|)
      && |r.body.tasks| <= limit
      && SortedTasks(r.body.tasks)
      && multiset(r.body.tasks) <= multiset(matching)
      && (forall i :: 0 <= i < |r.body.tasks| ==> Selected(user.value, q, r.body.tasks[i]))
  {
    if user.None? {
      return Unauthorized(NotAuthenticated);
    }
    var f := BuildListFilter(user.value, q);
    var page := q.page.GetOr(DefaultPage);
    var limit := q.limit.GetOr(DefaultLimit);
    var found := Filter(store.tasks, MatchesFn(f));
    FilterExt(store.tasks, MatchesFn(f), SelectedFn(user.value, q));
    var sorted := SortTasks(found);
    var tasks := PageSlice(sorted, page, limit);
    PageOfSorted(sorted, page, limit);
    forall i | 0 <= i < |tasks|
      ensures Selected(user.value, q, tasks[i])
    {
      assert tasks[i] in multiset(tasks);
      assert tasks[i] in multiset(found);
    }
    r := Ok("", TaskPage(tasks, Paginate(page, limit, |found|)));
  }

  // ---------------------------------------------------------------- by id

  method GetTaskById(store: TaskCollection, user: Option<Caller>, id: Id) returns (r: Response<Task>)
    ensures user.None? ==> r == Unauthorized(NotAuthenticated)
    ensures user.Some? ==>
      (r.Ok? <==> exists i :: 0 <= i < |store.tasks| && store.tasks[i].id == id && Owns(user.value, store.tasks[i]))
    ensures user.Some? && !r.Ok? ==> r == NotFound(TaskNotFound)
    ensures r.Ok? ==> r.body in store.tasks && r.body.id == id && Owns(user.value, r.body)
  {
    if user.None? {
      return Unauthorized(NotAuthenticated);
    }
    var f := TaskFilter(Some(id), user.value.id, None, None);
    var i := IndexWhere(store.tasks, MatchesFn(f));
    if i.None? {
      return NotFound(TaskNotFound);
    }
    r := Ok("", store.tasks[i.value]);
  }

  /** The update validators on a task body. */
  function CheckPatch(p: TaskPatch, toDate: string -> Option<int>): (r: Option<TaskUpdate>)
    ensures r.Some? <==>
      && (p.title.None? || p.title.value != "")
      && (p.dueDate.None? || toDate(p.dueDate.value).Some?)
      && (p.priority.None? || ParseTaskPriority(p.priority.value).Some?)
      && (p.status.None? || ParseTaskStatus(p.status.value).Some?)
      && (p.relatedTo.None? || CastRelated(p.relatedTo.value).Some?)
    ensures r.Some? ==>
      && r.value.title == p.title && r.value.description == p.description && r.value.createdBy == p.createdBy
      && (r.value.dueDate.Some? <==> p.dueDate.Some?)
      && (r.value.dueDate.Some? ==> r.value.dueDate == toDate(p.dueDate.value))
      && (r.value.priority.Some? <==> p.priority.Some?)
      && (r.value.priority.Some? ==> TaskPriorityName(r.value.priority.value) == p.priority.value)
      && (r.value.status.Some? <==> p.status.Some?)
      && (r.value.status.Some? ==> TaskStatusName(r.value.status.value) == p.status.value)
      && (r.value.relatedTo.Some? <==> p.relatedTo.Some?)
      && (r.value.relatedTo.Some? ==> r.value.relatedTo == CastRelated(p.relatedTo.value))
  {
    var due := if p.dueDate.Some? then toDate(p.dueDate.value) else None;
    var priority := if p.priority.Some? then ParseTaskPriority(p.priority.value) else None;
    var status := if p.status.Some? then ParseTaskStatus(p.status.value) else None;
    var rel := if p.relatedTo.Some? then CastRelated(p.relatedTo.value) else None;
    if (p.title.Some? && p.title.value == "") || (p.dueDate.Some? && due.None?)
      || (p.priority.Some? && priority.None?) || (p.status.Some? && status.None?)
      || (p.relatedTo.Some? && rel.None?) then None
    else Some(TaskUpdate(p.title, p.description, due, priority, status, rel, p.createdBy))
  }

  function ApplyUpdate(f: TaskFields, u: TaskUpdate): TaskFields {
    TaskFields(
      u.title.GetOr(f.title),
      if u.description.Some? then u.description else f.description,
      u.dueDate.GetOr(f.dueDate),
      u.priority.GetOr(f.priority),
      u.status.GetOr(f.status),
      if u.relatedTo.Some? then u.relatedTo else f.relatedTo,
      u.createdBy.GetOr(f.createdBy))
  }

  /** Every key of an accepted body takes the value sent (the date as converted, relatedTo
      as cast), so a task may move to any status the schema admits; a key not sent keeps
      its value. */
  lemma ApplyTakesBody(f: TaskFields, p: TaskPatch, toDate: string -> Option<int>)
    requires CheckPatch(p, toDate).Some?
    ensures var g := ApplyUpdate(f, CheckPatch(p, toDate).value);
      && g.title == p.title.GetOr(f.title)
      && g.description == (if p.description.Some? then p.description else f.description)
      && (p.dueDate.Some? ==> Some(g.dueDate) == toDate(p.dueDate.value))
      && (p.dueDate.None? ==> g.dueDate == f.dueDate)
      && (p.priority.Some? ==> TaskPriorityName(g.priority) == p.priority.value)
      && (p.priority.None? ==> g.priority == f.priority)
      && (p.status.Some? ==> TaskStatusName(g.status) == p.status.value)
      && (p.status.None? ==> g.status == f.status)
      && (p.relatedTo.Some? ==> g.relatedTo == CastRelated(p.relatedTo.value))
      && (p.relatedTo.None? ==> g.relatedTo == f.relatedTo)
      && g.createdBy == p.createdBy.GetOr(f.createdBy)
      && (MeetsSchema(f) ==> MeetsSchema(g))
  {
  }

  method UpdateTask(store: TaskCollection, user: Option<Caller>, id: Id, body: TaskPatch, toDate: string -> Option<int>)
    returns (r: Response<Task>)
    requires store.Valid()
    modifies store
    ensures store.Valid()
    ensures !r.Ok? ==> store.tasks == old(store.tasks)
    ensures user.None? ==> r == Unauthorized(NotAuthenticated)
    ensures user.Some? ==> (r.ServerError? <==> CheckPatch(body, toDate).None?)
    ensures r.ServerError? ==> r.message == GenericServerError
    ensures user.Some? && CheckPatch(body, toDate).Some? ==>
      (r.NotFound? <==> forall i :: 0 <= i < |old(store.tasks)| ==>
         !(old(store.tasks)[i].id == id && Owns(user.value, old(store.tasks)[i])))
    ensures r.NotFound? ==> r.message == TaskNotFound
    ensures r.Ok? ==>
      exists i :: 0 <= i < |old(store.tasks)|
        && old(store.tasks)[i].id == id && Owns(user.value, old(store.tasks)[i])
        && r.body == old(store.tasks)[i].(fields := ApplyUpdate(old(store.tasks)[i].fields, CheckPatch(body, toDate).value))
        && store.tasks == old(store.tasks)[i := r.body]
    ensures r.Ok? ==> r.message == "Task updated successfully"
  {
    if user.None? {
      return Unauthorized(NotAuthenticated);
    }
    var u := CheckPatch(body, toDate);
    if u.None? {
      return ServerError(GenericServerError);
    }
    var f := TaskFilter(Some(id), user.value.id, None, None);
    var i := IndexWhere(store.tasks, MatchesFn(f));
    if i.None? {
      return NotFound(TaskNotFound);
    }
    var t := store.tasks[i.value];
    ApplyTakesBody(t.fields, body, toDate);
    var g := ApplyUpdate(t.fields, u.value);
    store.Replace(i.value, g);
    r := Ok("Task updated successfully", t.(fields := g));
  }

  method DeleteTask(store: TaskCollection, user: Option<Caller>, id: Id) returns (r: Response<()>)
    requires store.Valid()
    modifies store
    ensures store.Valid()
    ensures user.None? ==> r == Unauthorized(NotAuthenticated)
    ensures !r.Ok? ==> store.tasks == old(store.tasks)
    ensures user.Some? ==>
      (r.Ok? <==> exists i :: 0 <= i < |old(store.tasks)| && old(store.tasks)[i].id == id && Owns(user.value, old(store.tasks)[i]))
    ensures user.Some? && !r.Ok? ==> r == NotFound(TaskNotFound)
    ensures r.Ok? ==>
      && r.message == "Task deleted successfully"
      && (exists i :: 0 <= i < |old(store.tasks)| && old(store.tasks)[i].id == id && Owns(user.value, old(store.tasks)[i])
                      && store.tasks == RemoveAt(old(store.tasks), i))
      && (forall i :: 0 <= i < |store.tasks| ==> store.tasks[i].id != id)
      && (forall i :: 0 <= i < |old(store.tasks)| && old(store.tasks)[i].id != id ==> old(store.tasks)[i] in store.tasks)
  {
    if user.None? {
      return Unauthorized(NotAuthenticated);
    }
    var f := TaskFilter(Some(id), user.value.id, None, None);
    var i := IndexWhere(store.tasks, MatchesFn(f));
    if i.None? {
      return NotFound(TaskNotFound);
    }
    RemoveUniqueKey(store.tasks, i.value, TaskId);
    store.Remove(i.value);
    r := Ok("Task deleted successfully", ());
  }
}
