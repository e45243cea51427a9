/** The Task schema (enums, defaults, required paths, the `relatedTo` sub-document) and the
    Task collection. */
module TaskModel {
  import opened Common
  import Seqs

  datatype TaskPriority = Low | Medium | High
  datatype TaskStatus = Pending | InProgress | Completed | Cancelled
  /** `relatedTo.type` admits the one value "lead". */
  datatype RelatedKind = LeadKind

  const DefaultTaskPriority: TaskPriority := Medium
  const DefaultTaskStatus: TaskStatus := Pending

  function TaskPriorityName(p: TaskPriority): string {
    match p
    case Low => "low"
    case Medium => "medium"
    case High => "high"
  }

  function TaskStatusName(s: TaskStatus): string {
    match s
    case Pending => "pending"
    case InProgress => "in-progress"
    case Completed => "completed"
    case Cancelled => "cancelled"
  }

  function RelatedKindName(k: RelatedKind): string {
    "lead"
  }

  function ParseTaskPriority(s: string): (r: Option<TaskPriority>)
    ensures r.Some? ==> TaskPriorityName(r.value) == s
    ensures r.None? ==> forall p :: TaskPriorityName(p) != s
  {
    if s == "low" then Some(Low)
    else if s == "medium" then Some(Medium)
    else if s == "high" then Some(High)
    else None
  }

  function ParseTaskStatus(s: string): (r: Option<TaskStatus>)
    ensures r.Some? ==> TaskStatusName(r.value) == s
    ensures r.None? ==> forall x :: TaskStatusName(x) != s
  {
    if s == "pending" then Some(Pending)
    else if s == "in-progress" then Some(InProgress)
    else if s == "completed" then Some(Completed)
    else if s == "cancelled" then Some(Cancelled)
    else None
  }

  function ParseRelatedKind(s: string): (r: Option<RelatedKind>)
    ensures r.Some? <==> s == "lead"
    ensures r.Some? ==> RelatedKindName(r.value) == s
  {
    if s == "lead" then Some(LeadKind) else None
  }

  lemma TaskParseRoundTrip(p: TaskPriority, s: TaskStatus, k: RelatedKind)
    ensures ParseTaskPriority(TaskPriorityName(p)) == Some(p)
    ensures ParseTaskStatus(TaskStatusName(s)) == Some(s)
    ensures ParseRelatedKind(RelatedKindName(k)) == Some(k)
  {
  }

  /** The `relatedTo` sub-document: an optional kind and an optional Lead reference. */
  datatype RelatedTo = RelatedTo(kind: Option<RelatedKind>, id: Option<Id>)

  /** The stored paths of a task other than `_id` and the timestamps; `dueDate` is the
      instant in milliseconds. */
  datatype TaskFields = TaskFields(
    title: string,
    description: Option<string>,
    dueDate: int,
    priority: TaskPriority,
    status: TaskStatus,
    relatedTo: Option<RelatedTo>,
    createdBy: Id)

  datatype Task = Task(id: Id, createdAt: nat, fields: TaskFields)

  function TaskId(t: Task): int {
    t.id
  }

  function TaskCreatedAt(t: Task): int {
    t.createdAt
  }

  /** `required: true` on title; dueDate and createdBy are present by their types. */
  predicate MeetsSchema(f: TaskFields) {
    f.title != ""
  }

  class TaskCollection {
    var tasks: seq<Task>
    var nextId: nat

    ghost predicate Valid()
      reads this
    {
      && Seqs.IncreasingBy(tasks, TaskId)
      && Seqs.IncreasingBy(tasks, TaskCreatedAt)
      && (forall i :: 0 <= i < |tasks| ==> tasks[i].id < nextId && tasks[i].createdAt < nextId)
      && (forall i :: 0 <= i < |tasks| ==> MeetsSchema(tasks[i].fields))
    }

    constructor ()
      ensures Valid() && tasks == []
    {
      tasks := [];
      nextId := 0;
    }

    /** `Task.create`. */
    method Insert(f: TaskFields) returns (t: Task)
      requires Valid() && MeetsSchema(f)
      modifies this
      ensures Valid()
      ensures t == Task(old(nextId), old(nextId), f)
      ensures tasks == old(tasks) + [t]
      ensures forall i :: 0 <= i < |old(tasks)| ==> old(tasks)[i].id < t.id
    {
      t := Task(nextId, nextId, f);
      tasks := tasks + [t];
      nextId := nextId + 1;
    }

    /** The write half of `findOneAndUpdate`. */
    method Replace(i: nat, f: TaskFields)
      requires Valid() && i < |tasks| && MeetsSchema(f)
      modifies this
      ensures Valid()
      ensures tasks == old(tasks)[i := old(tasks)[i].(fields := f)]
    {
      tasks := tasks[i := tasks[i].(fields := f)];
    }

    /** The write half of `findOneAndDelete`. */
    method Remove(i: nat)
      requires Valid() && i < |tasks|
      modifies this
      ensures Valid()
      ensures tasks == Seqs.RemoveAt(old(tasks), i)
    {
      tasks := Seqs.RemoveAt(tasks, i);
    }
  }
}
