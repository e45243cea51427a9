/** The lead management page (client/app/dashboard/leads/page.tsx): the fetched lead list,
    the modal that creates or edits a lead, and the confirmed delete. Requests are
    parameters giving how they came back. */
module LeadsDashboard {
  import opened Common
  import opened Session
  import opened ClientLists

  const AdminRole: string := "admin"
  const LeadDeleteFailed: string := "Failed to delete lead"

  /** How the delete request came back: done, rejected with an `Error` (and its message),
      or rejected with something else. */
  datatype DeleteResult = Removed | RejectedWithError(message: string) | RejectedOther

  /** `error instanceof Error ? error.message : 'Failed to delete lead'`. */
  function DeleteAlert(d: DeleteResult): (r: Option<string>)
    ensures d.Removed? <==> r.None?
    ensures d.RejectedWithError? ==> r == Some(d.message)
    ensures d.RejectedOther? ==> r == Some(LeadDeleteFailed)
  {
    match d
    case Removed => None
    case RejectedWithError(message) => Some(message)
    case RejectedOther => Some(LeadDeleteFailed)
  }

  /** The handler the modal calls on success. */
  datatype Handler = AddHandler | UpdateHandler

  /** `editingLead ? handleLeadUpdated : handleLeadAdded`. */
  function SuccessHandler(editing: Option<LeadItem>): (h: Handler)
    ensures h == UpdateHandler <==> editing.Some?
  {
    if editing.Some? then UpdateHandler else AddHandler
  }

  /** `user?.role !== 'admin'`: the "Add Lead" controls are shown to everyone but admins,
      including while no user is known. */
  predicate ShowsAddLead(user: Option<SessionUser>) {
    !(user.Some? && user.value.role == AdminRole)
  }

  /** The list a fetch leaves: `data?.leads ?? []`, and [] when the request threw. */
  function Received(answer: ApiOutcome<Option<seq<LeadItem>>>): (r: seq<LeadItem>)
    ensures answer.Failure? ==> r == []
    ensures answer.Success? && answer.value.None? ==> r == []
    ensures answer.Success? && answer.value.Some? ==> r == answer.value.value
  {
    match answer
    case Success(Some(l)) => l
    case _ => []
  }

  class LeadsPageState {
    var leads: seq<LeadItem>
    var loading: bool
    var isModalOpen: bool
    var editingLead: Option<LeadItem>
    var alerted: Option<string>

    constructor ()
      ensures leads == [] && loading && !isModalOpen && editingLead.None? && alerted.None?
    {
      leads := [];
      loading := true;
      isModalOpen := false;
      editingLead := None;
      alerted := None;
    }

    /** `fetchLeads`: the received list, and loading ends on every path. */
    method FetchLeads(answer: ApiOutcome<Option<seq<LeadItem>>>)
      modifies this
      ensures leads == Received(answer) && !loading
      ensures isModalOpen == old(isModalOpen) && editingLead == old(editingLead) && alerted == old(alerted)
    {
      loading := true;
      leads := Received(answer);
      loading := false;
    }

    method HandleLeadAdded(lead: LeadItem)
      modifies this
      ensures leads == Prepend(lead, old(leads))
      ensures loading == old(loading) && isModalOpen == old(isModalOpen)
      ensures editingLead == old(editingLead) && alerted == old(alerted)
    {
      leads := Prepend(lead, leads);
    }

    method HandleLeadUpdated(lead: LeadItem)
      modifies this
      ensures leads == ReplaceById(old(leads), lead, LeadItemId) && editingLead.None?
      ensures loading == old(loading) && isModalOpen == old(isModalOpen) && alerted == old(alerted)
    {
      leads := ReplaceById(leads, lead, LeadItemId);
      editingLead := None;
    }

    /** `handleDeleteLead`; `requested` tells whether the delete request was made. */
    method HandleDeleteLead(id: string, confirmed: bool, answer: DeleteResult) returns (requested: bool)
      modifies this
      ensures requested == confirmed
      ensures confirmed && answer.Removed? ==> leads == RemoveById(old(leads), id, LeadItemId)
      ensures !(confirmed && answer.Removed?) ==> leads == old(leads)
      ensures confirmed && !answer.Removed? ==> alerted == DeleteAlert(answer)
      ensures !(confirmed && !answer.Removed?) ==> alerted == old(alerted)
      ensures loading == old(loading) && isModalOpen == old(isModalOpen) && editingLead == old(editingLead)
    {
      if !confirmed {
        return false;
      }
      requested := true;
      var message := DeleteAlert(answer);
      if message.None? {
        leads := RemoveById(leads, id, LeadItemId);
      } else {
        alerted := message;
      }
    }

    method OpenCreateModal()
      modifies this
      ensures editingLead.None? && isModalOpen
      ensures leads == old(leads) && loading == old(loading) && alerted == old(alerted)
    {
      editingLead := None;
      isModalOpen := true;
    }

    method OpenEditModal(lead: LeadItem)
      modifies this
      ensures editingLead == Some(lead) && isModalOpen
      ensures leads == old(leads) && loading == old(loading) && alerted == old(alerted)
    {
      editingLead := Some(lead);
      isModalOpen := true;
    }

    method CloseModal()
      modifies this
      ensures !isModalOpen && editingLead.None?
      ensures leads == old(leads) && loading == old(loading) && alerted == old(alerted)
    {
      isModalOpen := false;
      editingLead := None;
    }

    /** The modal's `onSuccess`: an update while a lead is being edited, else an add. */
    method OnModalSuccess(lead: LeadItem) returns (used: Handler)
      modifies this
      ensures used == SuccessHandler(old(editingLead))
      ensures used == UpdateHandler ==> leads == ReplaceById(old(leads), lead, LeadItemId) && editingLead.None?
      ensures used == AddHandler ==> leads == Prepend(lead, old(leads)) && editingLead == old(editingLead)
      ensures loading == old(loading) && isModalOpen == old(isModalOpen) && alerted == old(alerted)
    {
      used := SuccessHandler(editingLead);
      if used == UpdateHandler {
        HandleLeadUpdated(lead);
      } else {
        HandleLeadAdded(lead);
      }
    }
  }
}
