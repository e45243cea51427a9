/** The Ticket schema (enums, defaults, required paths) and the Ticket collection. */
module TicketModel {
  import opened Common
  import Seqs

  datatype Status = Open | InProgress | Resolved | Closed
  datatype Priority = Low | Medium | High | Urgent
  datatype Category = Technical | Billing | FeatureRequest | Bug | Other

  const DefaultStatus: Status := Open
  const DefaultPriority: Priority := Medium

  function StatusName(s: Status): string {
    match s
    case Open => "open"
    case InProgress => "in-progress"
    case Resolved => "resolved"
    case Closed => "closed"
  }

  function PriorityName(p: Priority): string {
    match p
    case Low => "low"
    case Medium => "medium"
    case High => "high"
    case Urgent => "urgent"
  }

  function CategoryName(c: Category): string {
    match c
    case Technical => "technical"
    case Billing => "billing"
    case FeatureRequest => "feature-request"
    case Bug => "bug"
    case Other => "other"
  }

  /** The schema's enum check on `status`: accepts exactly the four status strings. */
  function ParseStatus(s: string): (r: Option<Status>)
    ensures r.Some? ==> StatusName(r.value) == s
    ensures r.None? ==> forall st :: StatusName(st) != s
  {
    if s == "open" then Some(Open)
    else if s == "in-progress" then Some(InProgress)
    else if s == "resolved" then Some(Resolved)
    else if s == "closed" then Some(Closed)
    else None
  }

  /** The schema's enum check on `priority`. */
  function ParsePriority(s: string): (r: Option<Priority>)
    ensures r.Some? ==> PriorityName(r.value) == s
    ensures r.None? ==> forall p :: PriorityName(p) != s
  {
    if s == "low" then Some(Low)
    else if s == "medium" then Some(Medium)
    else if s == "high" then Some(High)
    else if s == "urgent" then Some(Urgent)
    else None
  }

  /** The schema's enum check on `category`. */
  function ParseCategory(s: string): (r: Option<Category>)
    ensures r.Some? ==> CategoryName(r.value) == s
    ensures r.None? ==> forall c :: CategoryName(c) != s
  {
    if s == "technical" then Some(Technical)
    else if s == "billing" then Some(Billing)
    else if s == "feature-request" then Some(FeatureRequest)
    else if s == "bug" then Some(Bug)
    else if s == "other" then Some(Other)
    else None
  }

  /** The enum checks accept every name they define, and give back that value. */
  lemma ParseNamesRoundTrip(st: Status, p: Priority, c: Category)
    ensures ParseStatus(StatusName(st)) == Some(st)
    ensures ParsePriority(PriorityName(p)) == Some(p)
    ensures ParseCategory(CategoryName(c)) == Some(c)
  {
  }

  /** The stored paths of a ticket other than `_id` and the timestamps. */
  datatype TicketFields = TicketFields(
    title: string,
    description: string,
    status: Status,
    priority: Priority,
    category: Category,
    createdBy: Id,
    assignedTo: Option<Id>,
    attachments: seq<string>)

  datatype Ticket = Ticket(id: Id, createdAt: nat, fields: TicketFields)

  function TicketId(t: Ticket): int {
    t.id
  }

  function CreatedAtOf(t: Ticket): int {
    t.createdAt
  }

  /** `required: true` on the string paths title and description (an empty string fails it);
      category and createdBy are always present by their types. */
  predicate MeetsSchema(f: TicketFields) {
    f.title != "" && f.description != ""
  }

  /** The Ticket collection. `nextId` stands for the ObjectId generator and the clock that
      stamps `createdAt`: both grow with every insertion. */
  class TicketCollection {
    var tickets: seq<Ticket>
    var nextId: nat

    ghost predicate Valid()
      reads this
    {
      && Seqs.IncreasingBy(tickets, TicketId)
      && Seqs.IncreasingBy(tickets, CreatedAtOf)
      && (forall i :: 0 <= i < |tickets| ==> tickets[i].id < nextId && tickets[i].createdAt < nextId)
      && (forall i :: 0 <= i < |tickets| ==> MeetsSchema(tickets[i].fields))
    }

    constructor ()
      ensures Valid() && tickets == []
    {
      tickets := [];
      nextId := 0;
    }

    /** `Ticket.create`: a fresh id and creation time, appended in natural order. */
    method Insert(f: TicketFields) returns (t: Ticket)
      requires Valid() && MeetsSchema(f)
      modifies this
      ensures Valid()
      ensures t == Ticket(old(nextId), old(nextId), f)
      ensures tickets == old(tickets) + [t]
      ensures forall i :: 0 <= i < |old(tickets)| ==> old(tickets)[i].id < t.id
    {
      t := Ticket(nextId, nextId, f);
      tickets := tickets + [t];
      nextId := nextId + 1;
    }

    /** The write half of `findOneAndUpdate`: the document at position i gets new fields. */
    method Replace(i: nat, f: TicketFields)
      requires Valid() && i < |tickets| && MeetsSchema(f)
      modifies this
      ensures Valid()
      ensures tickets == old(tickets)[i := old(tickets)[i].(fields := f)]
    {
      tickets := tickets[i := tickets[i].(fields := f)];
    }

    /** The write half of `findByIdAndDelete`. */
    method Remove(i: nat)
      requires Valid() && i < |tickets|
      modifies this
      ensures Valid()
      ensures tickets == Seqs.RemoveAt(old(tickets), i)
    {
      tickets := Seqs.RemoveAt(tickets, i);
    }
  }
}
