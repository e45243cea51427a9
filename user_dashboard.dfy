/** The dashboard of role "user" (client/app/dashboard/user/page.tsx): the redirect of
    other roles, the lead and task lists it fetches and keeps in step with the forms, and
    the confirmed deletes. Every request is a parameter giving how it came back. */
module UserDashboard {
  import opened Common
  import opened Session
  import opened ClientLists

  const UserRole: string := "user"
  const DashboardPrefix: string := "/dashboard/"
  const LeadDeleteFailed: string := "Failed to delete lead"
  const TaskDeleteFailed: string := "Failed to delete task"

  /** How a list request came back: it threw, it answered with a status that is not ok,
      or it answered ok with a body whose list field may be missing. */
  datatype Fetched<T> = Threw | NotOk | OkBody(list: Option<seq<T>>)

  /** How a DELETE came back: ok, not ok with a message field ("" when there is none), or
      thrown. */
  datatype Deleted = DeleteOk | DeleteRefused(message: string) | DeleteThrew

  /** What the page's effect does for the signed-in user. */
  datatype Effect = Redirect(path: string) | FetchData | Idle

  /** The `useEffect` on `user`. */
  function EffectFor(user: Option<SessionUser>): (e: Effect)
    ensures user.None? <==> e == Idle
    ensures user.Some? && user.value.role != UserRole <==> e.Redirect?
    ensures e.Redirect? ==> e.path == DashboardPrefix + user.value.role
    ensures user.Some? && user.value.role == UserRole <==> e == FetchData
  {
    if user.Some? && user.value.role != UserRole then Redirect(DashboardPrefix + user.value.role)
    else if user.Some? then FetchData
    else Idle
  }

  /** Whether the page renders the dashboard rather than "Redirecting...". */
  predicate ShowsDashboard(user: Option<SessionUser>) {
    user.Some? && user.value.role == UserRole
  }

  /** The page fetches exactly when it shows the dashboard, and a redirect never points to
      this page itself. */
  lemma FetchOnlyForUsers(user: Option<SessionUser>)
    ensures EffectFor(user) == FetchData <==> ShowsDashboard(user)
    ensures EffectFor(user).Redirect? ==> EffectFor(user).path != DashboardPrefix + UserRole
  {
    if EffectFor(user).Redirect? {
      var path := EffectFor(user).path;
      assert path[|DashboardPrefix|..] == user.value.role;
      assert (DashboardPrefix + UserRole)[|DashboardPrefix|..] == UserRole;
    }
  }

  /** The list a fetch leaves: the body's list when the answer is ok and has one, else []. */
  function Received<T>(f: Fetched<T>): (r: seq<T>)
    ensures f.Threw? || f.NotOk? || f == OkBody(None) ==> r == []
    ensures f.OkBody? && f.list.Some? ==> r == f.list.value
  {
    match f
    case OkBody(Some(l)) => l
    case _ => []
  }

  /** The alert a failed delete shows, or None when it succeeded. */
  function DeleteAlert(d: Deleted, fallback: string): (r: Option<string>)
    ensures d.DeleteOk? <==> r.None?
    ensures d.DeleteRefused? ==> r == Some(MessageOr(d.message, fallback))
    ensures d.DeleteThrew? ==> r == Some(fallback)
  {
    match d
    case DeleteOk => None
    case DeleteRefused(message) => Some(MessageOr(message, fallback))
    case DeleteThrew => Some(fallback)
  }

  class UserDashboardState {
    var leads: seq<LeadItem>
    var tasks: seq<TaskItem>
    var loading: bool
    var editingLead: Option<LeadItem>
    var editingTask: Option<TaskItem>
    var route: Option<string>
    var alerted: Option<string>

    constructor ()
      ensures leads == [] && tasks == [] && loading && editingLead.None? && editingTask.None?
      ensures route.None? && alerted.None?
    {
      leads := [];
      tasks := [];
      loading := true;
      editingLead := None;
      editingTask := None;
      route := None;
      alerted := None;
    }

    /** The effect on `user`: a redirect, the two fetches, or nothing. */
    method OnUser(user: Option<SessionUser>, leadsAnswer: Fetched<LeadItem>, tasksAnswer: Fetched<TaskItem>)
      modifies this
      ensures EffectFor(user).Redirect? ==>
        route == Some(EffectFor(user).path) && leads == old(leads) && tasks == old(tasks) && loading == old(loading)
      ensures EffectFor(user) == FetchData ==>
        route == old(route) && leads == Received(leadsAnswer) && tasks == Received(tasksAnswer) && !loading
      ensures EffectFor(user) == Idle ==>
        route == old(route) && leads == old(leads) && tasks == old(tasks) && loading == old(loading)
      ensures editingLead == old(editingLead) && editingTask == old(editingTask) && alerted == old(alerted)
    {
      var e := EffectFor(user);
      match e {
        case Redirect(path) =>
          route := Some(path);
        case FetchData =>
          FetchInitialData(leadsAnswer, tasksAnswer);
        case Idle =>
      }
    }

    /** `fetchInitialData`: both lists, then loading ends. */
    method FetchInitialData(leadsAnswer: Fetched<LeadItem>, tasksAnswer: Fetched<TaskItem>)
      modifies this
      ensures leads == Received(leadsAnswer) && tasks == Received(tasksAnswer) && !loading
      ensures editingLead == old(editingLead) && editingTask == old(editingTask)
      ensures route == old(route) && alerted == old(alerted)
    {
      loading := true;
      leads := Received(leadsAnswer);
      tasks := Received(tasksAnswer);
      loading := false;
    }

    method HandleLeadAdded(lead: LeadItem)
      modifies this
      ensures leads == Prepend(lead, old(leads))
      ensures tasks == old(tasks) && editingLead == old(editingLead) && editingTask == old(editingTask)
      ensures loading == old(loading) && route == old(route) && alerted == old(alerted)
    {
      leads := Prepend(lead, leads);
    }

    method HandleTaskAdded(task: TaskItem)
      modifies this
      ensures tasks == Prepend(task, old(tasks))
      ensures leads == old(leads) && editingLead == old(editingLead) && editingTask == old(editingTask)
      ensures loading == old(loading) && route == old(route) && alerted == old(alerted)
    {
      tasks := Prepend(task, tasks);
    }

    method HandleLeadUpdated(lead: LeadItem)
      modifies this
      ensures leads == ReplaceById(old(leads), lead, LeadItemId) && editingLead.None?
      ensures tasks == old(tasks) && editingTask == old(editingTask)
      ensures loading == old(loading) && route == old(route) && alerted == old(alerted)
    {
      leads := ReplaceById(leads, lead, LeadItemId);
      editingLead := None;
    }

    method HandleTaskUpdated(task: TaskItem)
      modifies this
      ensures tasks == ReplaceById(old(tasks), task, TaskItemId) && editingTask.None?
      ensures leads == old(leads) && editingLead == old(editingLead)
      ensures loading == old(loading) && route == old(route) && alerted == old(alerted)
    {
      tasks := ReplaceById(tasks, task, TaskItemId);
      editingTask := None;
    }

    /** `handleDeleteLead`: `confirmed` is the answer to the confirm dialog; `requested`
        tells whether the DELETE was sent. */
    method HandleDeleteLead(id: string, confirmed: bool, answer: Deleted) returns (requested: bool)
      modifies this
      ensures requested == confirmed
      ensures confirmed && answer.DeleteOk? ==> leads == RemoveById(old(leads), id, LeadItemId)
      ensures !(confirmed && answer.DeleteOk?) ==> leads == old(leads)
      ensures confirmed ==>
        alerted == (if answer.DeleteOk? then old(alerted) else DeleteAlert(answer, LeadDeleteFailed))
      ensures !confirmed ==> alerted == old(alerted)
      ensures tasks == old(tasks) && editingLead == old(editingLead) && editingTask == old(editingTask)
      ensures loading == old(loading) && route == old(route)
    {
      if !confirmed {
        return false;
      }
      requested := true;
      var message := DeleteAlert(answer, LeadDeleteFailed);
      if message.None? {
        leads := RemoveById(leads, id, LeadItemId);
      } else {
        alerted := message;
      }
    }

    method HandleDeleteTask(id: string, confirmed: bool, answer: Deleted) returns (requested: bool)
      modifies this
      ensures requested == confirmed
      ensures confirmed && answer.DeleteOk? ==> tasks == RemoveById(old(tasks), id, TaskItemId)
      ensures !(confirmed && answer.DeleteOk?) ==> tasks == old(tasks)
      ensures confirmed ==>
        alerted == (if answer.DeleteOk? then old(alerted) else DeleteAlert(answer, TaskDeleteFailed))
      ensures !confirmed ==> alerted == old(alerted)
      ensures leads == old(leads) && editingLead == old(editingLead) && editingTask == old(editingTask)
      ensures loading == old(loading) && route == old(route)
    {
      if !confirmed {
        return false;
      }
      requested := true;
      var message := DeleteAlert(answer, TaskDeleteFailed);
      if message.None? {
        tasks := RemoveById(tasks, id, TaskItemId);
      } else {
        alerted := message;
      }
    }
  }
}
