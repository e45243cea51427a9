/** The ticket handlers: create, list with filters and pages, get, update (with the
    non-admin field stripping), statistics and delete. An admin sees every ticket; anyone
    else sees the tickets they created, and a ticket they cannot see is "not found". */
module TicketController {
  import opened Common
  import opened Seqs
  import opened Pagination
  import opened TicketModel

  const TicketNotFound: string := "Ticket not found"

  /** Request body of createTicket; "" stands for a missing (falsy) field. */
  datatype CreateBody = CreateBody(title: string, description: string, priority: string, category: string)

  /** Query string of getTickets; "" stands for an absent filter. */
  datatype TicketQuery = TicketQuery(status: string, priority: string, category: string, page: Option<nat>, limit: Option<nat>)

  /** Request body of updateTicket: the keys it may carry, each present or not. */
  datatype TicketPatch = TicketPatch(
    title: Option<string>,
    description: Option<string>,
    status: Option<string>,
    priority: Option<string>,
    category: Option<string>,
    assignedTo: Option<Id>,
    createdBy: Option<Id>,
    attachments: Option<seq<string>>)

  /** A patch after the schema's update validators accepted it. */
  datatype TicketUpdate = TicketUpdate(
    title: Option<string>,
    description: Option<string>,
    status: Option<Status>,
    priority: Option<Priority>,
    category: Option<Category>,
    assignedTo: Option<Id>,
    createdBy: Option<Id>,
    attachments: Option<seq<string>>)

  /** A query filter document: each present key must equal the ticket's field. */
  datatype TicketFilter = TicketFilter(
    id: Option<Id>,
    createdBy: Option<Id>,
    status: Option<string>,
    priority: Option<string>,
    category: Option<string>)

  datatype TicketPage = TicketPage(tickets: seq<Ticket>, pagination: PageInfo)

  datatype TicketStats = TicketStats(
    totalTickets: nat,
    openTickets: nat,
    inProgressTickets: nat,
    resolvedTickets: nat,
    urgentTickets: nat,
    recentTickets: nat,
    ticketsByCategory: seq<(Category, nat)>,
    ticketsByStatus: seq<(Status, nat)>)

  /** How the store evaluates a filter document against a ticket. */
  predicate Matches(f: TicketFilter, t: Ticket) {
    && (f.id.None? || t.id == f.id.value)
    && (f.createdBy.None? || t.fields.createdBy == f.createdBy.value)
    && (f.status.None? || StatusName(t.fields.status) == f.status.value)
    && (f.priority.None? || PriorityName(t.fields.priority) == f.priority.value)
    && (f.category.None? || CategoryName(t.fields.category) == f.category.value)
  }

  function MatchesFn(f: TicketFilter): Ticket -> bool {
    (t: Ticket) => Matches(f, t)
  }

  /** The ownership rule: admins see every ticket, others only the ones they created. */
  predicate CanSee(c: Caller, t: Ticket) {
    IsAdmin(c) || t.fields.createdBy == c.id
  }

  /** What a list request asks for: a visible ticket that agrees with every query field given. */
  predicate Selected(c: Caller, q: TicketQuery, t: Ticket) {
    && CanSee(c, t)
    && (q.status == "" || StatusName(t.fields.status) == q.status)
    && (q.priority == "" || PriorityName(t.fields.priority) == q.priority)
    && (q.category == "" || CategoryName(t.fields.category) == q.category)
  }

  function SelectedFn(c: Caller, q: TicketQuery): Ticket -> bool {
    (t: Ticket) => Selected(c, q, t)
  }

  /** The tickets matching a list request, in natural (insertion) order. */
  function Matching(s: seq<Ticket>, c: Caller, q: TicketQuery): seq<Ticket> {
    Filter(s, SelectedFn(c, q))
  }

  /** `priority || "medium"`. */
  function PriorityOrDefault(s: string): string {
    if s == "" then PriorityName(DefaultPriority) else s
  }

  /** The update validators (`runValidators: true`): enum keys must hold an enum value and
      the required strings may not be set empty. */
  function CheckPatch(p: TicketPatch): (r: Option<TicketUpdate>)
    ensures r.Some? <==>
      && (p.title.None? || p.title.value != "")
      && (p.description.None? || p.description.value != "")
      && (p.status.None? || ParseStatus(p.status.value).Some?)
      && (p.priority.None? || ParsePriority(p.priority.value).Some?)
      && (p.category.None? || ParseCategory(p.category.value).Some?)
    ensures r.Some? ==>
      && r.value.title == p.title && r.value.description == p.description
      && r.value.assignedTo == p.assignedTo && r.value.createdBy == p.createdBy
      && r.value.attachments == p.attachments
      && (r.value.status.Some? <==> p.status.Some?)
      && (r.value.status.Some? ==> StatusName(r.value.status.value) == p.status.value)
      && (r.value.priority.Some? <==> p.priority.Some?)
      && (r.value.priority.Some? ==> PriorityName(r.value.priority.value) == p.priority.value)
      && (r.value.category.Some? <==> p.category.Some?)
      && (r.value.category.Some? ==> CategoryName(r.value.category.value) == p.category.value)
  {
    if (p.title.Some? && p.title.value == "") || (p.description.Some? && p.description.value == "") then None
    else
      var status := if p.status.Some? then ParseStatus(p.status.value) else None;
      var priority := if p.priority.Some? then ParsePriority(p.priority.value) else None;
      var category := if p.category.Some? then ParseCategory(p.category.value) else None;
      if (p.status.Some? && status.None?) || (p.priority.Some? && priority.None?)
        || (p.category.Some? && category.None?) then None
      else Some(TicketUpdate(p.title, p.description, status, priority, category, p.assignedTo, p.createdBy, p.attachments))
  }

  /** The `$set` of an update: each key present replaces its path, nothing else changes. */
  function ApplyUpdate(f: TicketFields, u: TicketUpdate): TicketFields {
    TicketFields(
      u.title.GetOr(f.title),
      u.description.GetOr(f.description),
      u.status.GetOr(f.status),
      u.priority.GetOr(f.priority),
      u.category.GetOr(f.category),
      u.createdBy.GetOr(f.createdBy),
      if u.assignedTo.Some? then u.assignedTo else f.assignedTo,
      u.attachments.GetOr(f.attachments))
  }

  /** The body a caller's update is applied with: a non-admin's loses status and assignedTo. */
  function PatchFor(c: Caller, p: TicketPatch): (r: TicketPatch)
    ensures IsAdmin(c) ==> r == p
    ensures !IsAdmin(c) ==> r.status.None? && r.assignedTo.None?
    ensures r.(status := p.status, assignedTo := p.assignedTo) == p
  {
    if IsAdmin(c) then p else p.(status := None, assignedTo := None)
  }

  /** Nothing a non-admin sends changes a ticket's status or assignee. */
  lemma NonAdminKeepsWorkflow(c: Caller, p: TicketPatch, f: TicketFields)
    requires !IsAdmin(c) && CheckPatch(PatchFor(c, p)).Some?
    ensures ApplyUpdate(f, CheckPatch(PatchFor(c, p)).value).status == f.status
    ensures ApplyUpdate(f, CheckPatch(PatchFor(c, p)).value).assignedTo == f.assignedTo
  {
  }

  /** An admin's status and assignee are applied as sent. */
  lemma AdminSetsWorkflow(c: Caller, p: TicketPatch, f: TicketFields, st: Status, who: Id)
    requires IsAdmin(c) && p.status == Some(StatusName(st)) && p.assignedTo == Some(who)
    requires CheckPatch(PatchFor(c, p)).Some?
    ensures ApplyUpdate(f, CheckPatch(PatchFor(c, p)).value).status == st
    ensures ApplyUpdate(f, CheckPatch(PatchFor(c, p)).value).assignedTo == Some(who)
  {
    var u := CheckPatch(p).value;
    assert StatusName(u.status.value) == StatusName(st);
  }

  /** Every key of an accepted body takes the value sent, `attachments` included; a key
      not sent keeps its value. */
  lemma ApplyTakesBody(f: TicketFields, p: TicketPatch)
    requires CheckPatch(p).Some?
    ensures var g := ApplyUpdate(f, CheckPatch(p).value);
      && g.title == p.title.GetOr(f.title)
      && g.description == p.description.GetOr(f.description)
      && (p.status.Some? ==> StatusName(g.status) == p.status.value)
      && (p.status.None? ==> g.status == f.status)
      && (p.priority.Some? ==> PriorityName(g.priority) == p.priority.value)
      && (p.priority.None? ==> g.priority == f.priority)
      && (p.category.Some? ==> CategoryName(g.category) == p.category.value)
      && (p.category.None? ==> g.category == f.category)
      && g.createdBy == p.createdBy.GetOr(f.createdBy)
      && g.assignedTo == (if p.assignedTo.Some? then p.assignedTo else f.assignedTo)
      && g.attachments == p.attachments.GetOr(f.attachments)
  {
  }

  lemma ApplyKeepsSchema(f: TicketFields, p: TicketPatch)
    requires MeetsSchema(f) && CheckPatch(p).Some?
    ensures MeetsSchema(ApplyUpdate(f, CheckPatch(p).value))
  {
  }

  /** createTicket. */
  method CreateTicket(store: TicketCollection, user: Option<Caller>, body: CreateBody) returns (r: Response<Ticket>)
    requires store.Valid()
    modifies store
    ensures store.Valid()
    ensures user.None? ==> r == Unauthorized(NotAuthenticated)
    ensures user.Some? && (body.title == "" || body.description == "" || body.category == "") ==>
      r == BadRequest("Title, description and category are required")
    ensures r.Created? <==>
      && user.Some? && body.title != "" && body.description != ""
      && ParsePriority(PriorityOrDefault(body.priority)).Some? && ParseCategory(body.category).Some?
    ensures r.Created? ==>
      && r.message == "Ticket created successfully"
      && store.tickets == old(store.tickets) + [r.body]
      && (forall i :: 0 <= i < |old(store.tickets)| ==> old(store.tickets)[i].id < r.body.id)
      && r.body.fields == TicketFields(body.title, body.description, DefaultStatus,
           ParsePriority(PriorityOrDefault(body.priority)).value, ParseCategory(body.category).value,
           user.value.id, None, [])
    ensures (&& user.Some? && body.title != "" && body.description != "" && body.category != ""
             && (ParsePriority(PriorityOrDefault(body.priority)).None? || ParseCategory(body.category).None?))
      ==> r == ServerError(GenericServerError)
    ensures !r.Created? ==> store.tickets == old(store.tickets)
    ensures r.ServerError? ==> r.message == GenericServerError
  {
    if user.None? {
      return Unauthorized(NotAuthenticated);
    }
    if body.title == "" || body.description == "" || body.category == "" {
      return BadRequest("Title, description and category are required");
    }
    var priority := ParsePriority(PriorityOrDefault(body.priority));
    var category := ParseCategory(body.category);
    if priority.None? || category.None? {
      // the schema's enum validator rejects the document
      return ServerError(GenericServerError);
    }
    var t := store.Insert(TicketFields(body.title, body.description, DefaultStatus,
                                       priority.value, category.value, user.value.id, None, []));
    r := Created("Ticket created successfully", t);
  }

  /** The filter getTickets builds: `{}` for an admin, `{createdBy}` otherwise, then one key
      per query field present. */
  method BuildListFilter(c: Caller, q: TicketQuery) returns (f: TicketFilter)
    ensures f.id.None?
    ensures f.createdBy.None? <==> IsAdmin(c)
    ensures forall t :: Matches(f, t) <==> Selected(c, q, t)
  {
    f := if IsAdmin(c) then TicketFilter(None, None, None, None, None)
         else TicketFilter(None, Some(c.id), None, None, None);
    if q.status != "" {
      f := f.(status := Some(q.status));
    }
    if q.priority != "" {
      f := f.(priority := Some(q.priority));
    }
    if q.category != "" {
      f := f.(category := Some(q.category));
    }
  }

  /** The filter getTicketById and updateTicket build: `{_id}`, plus `createdBy` for a
      non-admin. */
  method BuildIdFilter(c: Caller, id: Id) returns (f: TicketFilter)
    ensures forall t :: Matches(f, t) <==> t.id == id && CanSee(c, t)
  {
    f := TicketFilter(Some(id), None, None, None, None);
    if !IsAdmin(c) {
      f := f.(createdBy := Some(c.id));
    }
  }

  /** getTickets: the selected tickets, newest first, one page of them, with page metadata. */
  method GetTickets(store: TicketCollection, user: Option<Caller>, q: TicketQuery) returns (r: Response<TicketPage>)
    requires store.Valid()
    requires q.page.GetOr(DefaultPage) >= 1 && q.limit.GetOr(DefaultLimit) >= 1
    ensures user.None? <==> r.Unauthorized?
    ensures user.None? ==> r.message == NotAuthenticated
    ensures user.Some? ==>
      var page := q.page.GetOr(DefaultPage);
      var limit := q.limit.GetOr(DefaultLimit);
      var matching := Matching(store.tickets, user.value, q);
      && r.Ok?
      && r.body.tickets == PageSlice(Reverse(matching), page, limit)
      && r.body.pagination == Paginate(page, limit, |matching|)
      && |r.body.tickets| <= limit
      && DecreasingBy(r.body.tickets, CreatedAtOf)
      && (forall i :: 0 <= i < |r.body.tickets| ==>
            r.body.tickets[i] in store.tickets && Selected(user.value, q, r.body.tickets[i]))
  {
    if user.None? {
      return Unauthorized(NotAuthenticated);
    }
    var f := BuildListFilter(user.value, q);
    var page := q.page.GetOr(DefaultPage);
    var limit := q.limit.GetOr(DefaultLimit);
    var found := Filter(store.tickets, MatchesFn(f));
    FilterExt(store.tickets, MatchesFn(f), SelectedFn(user.value, q));
    FilterKeepsIncreasing(store.tickets, MatchesFn(f), CreatedAtOf);
    var sorted := Reverse(found);
    ReverseOfIncreasing(found, CreatedAtOf);
    var tickets := PageSlice(sorted, page, limit);
    var total := |found|;
    assert forall i :: 0 <= i < |tickets| ==> tickets[i] in found;
    r := Ok("", TicketPage(tickets, Paginate(page, limit, total)));
  }

  /** getTicketById. */
  method GetTicketById(store: TicketCollection, user: Option<Caller>, id: Id) returns (r: Response<Ticket>)
    ensures user.None? ==> r == Unauthorized(NotAuthenticated)
    ensures user.Some? ==>
      (r.Ok? <==> exists i :: 0 <= i < |store.tickets| && store.tickets[i].id == id && CanSee(user.value, store.tickets[i]))
    ensures user.Some? && !r.Ok? ==> r == NotFound(TicketNotFound)
    ensures r.Ok? ==> r.body in store.tickets && r.body.id == id && CanSee(user.value, r.body)
  {
    if user.None? {
      return Unauthorized(NotAuthenticated);
    }
    var f := BuildIdFilter(user.value, id);
    var i := IndexWhere(store.tickets, MatchesFn(f));
    if i.None? {
      return NotFound(TicketNotFound);
    }
    r := Ok("", store.tickets[i.value]);
  }

  /** updateTicket. The validators run on the (stripped) body before the document is looked up. */
  method UpdateTicket(store: TicketCollection, user: Option<Caller>, id: Id, body: TicketPatch) returns (r: Response<Ticket>)
    requires store.Valid()
    modifies store
    ensures store.Valid()
    ensures !r.Ok? ==> store.tickets == old(store.tickets)
    ensures user.None? ==> r == Unauthorized(NotAuthenticated)
    ensures user.Some? ==> (r.ServerError? <==> CheckPatch(PatchFor(user.value, body)).None?)
    ensures r.ServerError? ==> r.message == GenericServerError
    ensures user.Some? && CheckPatch(PatchFor(user.value, body)).Some? ==>
      (r.NotFound? <==> forall i :: 0 <= i < |old(store.tickets)| ==>
         !(old(store.tickets)[i].id == id && CanSee(user.value, old(store.tickets)[i])))
    ensures r.NotFound? ==> r.message == TicketNotFound
    ensures r.Ok? ==>
      exists i :: 0 <= i < |old(store.tickets)|
        && old(store.tickets)[i].id == id && CanSee(user.value, old(store.tickets)[i])
        && r.body == old(store.tickets)[i].(fields := ApplyUpdate(old(store.tickets)[i].fields,
                                                                 CheckPatch(PatchFor(user.value, body)).value))
        && store.tickets == old(store.tickets)[i := r.body]
    ensures r.Ok? ==> r.message == "Ticket updated successfully"
  {
    if user.None? {
      return Unauthorized(NotAuthenticated);
    }
    var updateData := body;
    var f := TicketFilter(Some(id), None, None, None, None);
    if !IsAdmin(user.value) {
      f := f.(createdBy := Some(user.value.id));
      // regular users can only update certain fields
      updateData := updateData.(status := None);
      updateData := updateData.(assignedTo := None);
    }
    assert updateData == PatchFor(user.value, body);
    var u := CheckPatch(updateData);
    if u.None? {
      return ServerError(GenericServerError);
    }
    var i := IndexWhere(store.tickets, MatchesFn(f));
    if i.None? {
      return NotFound(TicketNotFound);
    }
    var t := store.tickets[i.value];
    ApplyKeepsSchema(t.fields, updateData);
    var g := ApplyUpdate(t.fields, u.value);
    store.Replace(i.value, g);
    r := Ok("Ticket updated successfully", t.(fields := g));
  }

  function HasStatus(st: Status): Ticket -> bool {
    (t: Ticket) => t.fields.status == st
  }

  function HasPriority(p: Priority): Ticket -> bool {
    (t: Ticket) => t.fields.priority == p
  }

  function HasCategory(c: Category): Ticket -> bool {
    (t: Ticket) => t.fields.category == c
  }

  function CreatedSince(since: nat): Ticket -> bool {
    (t: Ticket) => t.createdAt >= since
  }

  /** `countDocuments({status})`. */
  function CountStatus(s: seq<Ticket>, st: Status): nat {
    |Filter(s, HasStatus(st))|
  }

  function CountCategory(s: seq<Ticket>, c: Category): nat {
    |Filter(s, HasCategory(c))|
  }

  /** `$group` by a key keeps one group per value that occurs, with its count. */
  function StatusGroups(s: seq<Ticket>, keys: seq<Status>): (g: seq<(Status, nat)>)
    ensures forall i :: 0 <= i < |g| ==> g[i].0 in keys && g[i].1 == CountStatus(s, g[i].0) && g[i].1 > 0
  {
    if keys == [] then []
    else
      var n := CountStatus(s, keys[0]);
      (if n > 0 then [(keys[0], n)] else []) + StatusGroups(s, keys[1..])
  }

  function CategoryGroups(s: seq<Ticket>, keys: seq<Category>): (g: seq<(Category, nat)>)
    ensures forall i :: 0 <= i < |g| ==> g[i].0 in keys && g[i].1 == CountCategory(s, g[i].0) && g[i].1 > 0
  {
    if keys == [] then []
    else
      var n := CountCategory(s, keys[0]);
      (if n > 0 then [(keys[0], n)] else []) + CategoryGroups(s, keys[1..])
  }

  /** Every status that occurs has its group... */
  lemma {:induction false} StatusGroupsComplete(s: seq<Ticket>, keys: seq<Status>)
    ensures forall k :: k in keys && CountStatus(s, k) > 0 ==> (k, CountStatus(s, k)) in StatusGroups(s, keys)
  {
    if keys != [] {
      var tail := keys[1..];
      StatusGroupsComplete(s, tail);
      var n := CountStatus(s, keys[0]);
      var head := if n > 0 then [(keys[0], n)] else [];
      assert StatusGroups(s, keys) == head + StatusGroups(s, tail);
      assert forall k :: k in keys && k != keys[0] ==> k in tail;
    }
  }

  /** ...and no status has two groups when the keys are distinct. */
  lemma {:induction false} StatusGroupsDistinct(s: seq<Ticket>, keys: seq<Status>)
    requires forall i, j :: 0 <= i < j < |keys| ==> keys[i] != keys[j]
    ensures DistinctKeys(StatusGroups(s, keys))
  {
    if keys != [] {
      DistinctTail(keys);
      StatusGroupsDistinct(s, keys[1..]);
      StatusGroupsOmit(s, keys[0], keys[1..]);
      var n := CountStatus(s, keys[0]);
      if n > 0 {
        ConsDistinctKeys((keys[0], n), StatusGroups(s, keys[1..]));
      }
    }
  }

  /** A key that is not listed has no group. */
  lemma StatusGroupsOmit(s: seq<Ticket>, k: Status, keys: seq<Status>)
    requires k !in keys
    ensures forall i :: 0 <= i < |StatusGroups(s, keys)| ==> StatusGroups(s, keys)[i].0 != k
  {
  }




  lemma {:induction false} CategoryGroupsComplete(s: seq<Ticket>, keys: seq<Category>)
    ensures forall k :: k in keys && CountCategory(s, k) > 0 ==> (k, CountCategory(s, k)) in CategoryGroups(s, keys)
  {
    if keys != [] {
      var tail := keys[1..];
      CategoryGroupsComplete(s, tail);
      var n := CountCategory(s, keys[0]);
      var head := if n > 0 then [(keys[0], n)] else [];
      assert CategoryGroups(s, keys) == head + CategoryGroups(s, tail);
      assert forall k :: k in keys && k != keys[0] ==> k in tail;
    }
  }

  lemma {:induction false} CategoryGroupsDistinct(s: seq<Ticket>, keys: seq<Category>)
    requires forall i, j :: 0 <= i < j < |keys| ==> keys[i] != keys[j]
    ensures DistinctKeys(CategoryGroups(s, keys))
  {
    if keys != [] {
      DistinctTail(keys);
      CategoryGroupsDistinct(s, keys[1..]);
      CategoryGroupsOmit(s, keys[0], keys[1..]);
      var n := CountCategory(s, keys[0]);
      if n > 0 {
        ConsDistinctKeys((keys[0], n), CategoryGroups(s, keys[1..]));
      }
    }
  }

  /** A key that is not listed has no group. */
  lemma CategoryGroupsOmit(s: seq<Ticket>, k: Category, keys: seq<Category>)
    requires k !in keys
    ensures forall i :: 0 <= i < |CategoryGroups(s, keys)| ==> CategoryGroups(s, keys)[i].0 != k
  {
  }




  const AllStatuses: seq<Status> := [Open, InProgress, Resolved, Closed]
  const AllCategories: seq<Category> := [Technical, Billing, FeatureRequest, Bug, Other]

  function SumCounts<K>(g: seq<(K, nat)>): nat {
    if g == [] then 0 else g[0].1 + SumCounts(g[1..])
  }

  lemma {:induction false} SumCountsAppend<K>(a: seq<(K, nat)>, b: seq<(K, nat)>)
    ensures SumCounts(a + b) == SumCounts(a) + SumCounts(b)
  {
    if a == [] {
      assert a + b == b;
    } else {
      assert (a + b)[1..] == a[1..] + b;
      SumCountsAppend(a[1..], b);
    }
  }

  /** Every ticket has exactly one of the four statuses. */
  lemma {:induction false} StatusPartition(s: seq<Ticket>)
    ensures |s| == CountStatus(s, Open) + CountStatus(s, InProgress) + CountStatus(s, Resolved) + CountStatus(s, Closed)
  {
    if s != [] {
      StatusPartition(s[1..]);
      FilterLengthStep(s, HasStatus(Open));
      FilterLengthStep(s, HasStatus(InProgress));
      FilterLengthStep(s, HasStatus(Resolved));
      FilterLengthStep(s, HasStatus(Closed));
    }
  }

  /** Every ticket has exactly one of the five categories. */
  lemma {:induction false} CategoryPartition(s: seq<Ticket>)
    ensures |s| == CountCategory(s, Technical) + CountCategory(s, Billing) + CountCategory(s, FeatureRequest)
                   + CountCategory(s, Bug) + CountCategory(s, Other)
  {
    if s != [] {
      CategoryPartition(s[1..]);
      FilterLengthStep(s, HasCategory(Technical));
      FilterLengthStep(s, HasCategory(Billing));
      FilterLengthStep(s, HasCategory(FeatureRequest));
      FilterLengthStep(s, HasCategory(Bug));
      FilterLengthStep(s, HasCategory(Other));
    }
  }

  /** The total of the counts of the given statuses. */
  function StatusTotal(s: seq<Ticket>, keys: seq<Status>): nat {
    if keys == [] then 0 else CountStatus(s, keys[0]) + StatusTotal(s, keys[1..])
  }

  function CategoryTotal(s: seq<Ticket>, keys: seq<Category>): nat {
    if keys == [] then 0 else CountCategory(s, keys[0]) + CategoryTotal(s, keys[1..])
  }

  /** Dropping the empty groups does not change the sum. */
  lemma {:induction false} StatusGroupsSum(s: seq<Ticket>, keys: seq<Status>)
    ensures SumCounts(StatusGroups(s, keys)) == StatusTotal(s, keys)
  {
    if keys != [] {
      var n := CountStatus(s, keys[0]);
      SumCountsAppend(if n > 0 then [(keys[0], n)] else [], StatusGroups(s, keys[1..]));
      StatusGroupsSum(s, keys[1..]);
    }
  }

  lemma {:induction false} CategoryGroupsSum(s: seq<Ticket>, keys: seq<Category>)
    ensures SumCounts(CategoryGroups(s, keys)) == CategoryTotal(s, keys)
  {
    if keys != [] {
      var n := CountCategory(s, keys[0]);
      SumCountsAppend(if n > 0 then [(keys[0], n)] else [], CategoryGroups(s, keys[1..]));
      CategoryGroupsSum(s, keys[1..]);
    }
  }

  lemma StatusTotalAll(s: seq<Ticket>)
    ensures StatusTotal(s, AllStatuses) == |s|
  {
    var k0, k1, k2, k3: seq<Status> := AllStatuses, [InProgress, Resolved, Closed], [Resolved, Closed], [Closed];
    assert k0[1..] == k1 && k1[1..] == k2 && k2[1..] == k3 && k3[1..] == [];
    assert StatusTotal(s, k3) == CountStatus(s, Closed);
    assert StatusTotal(s, k2) == CountStatus(s, Resolved) + StatusTotal(s, k3);
    assert StatusTotal(s, k1) == CountStatus(s, InProgress) + StatusTotal(s, k2);
    assert StatusTotal(s, k0) == CountStatus(s, Open) + StatusTotal(s, k1);
    StatusPartition(s);
  }

  lemma CategoryTotalAll(s: seq<Ticket>)
    ensures CategoryTotal(s, AllCategories) == |s|
  {
    var k0, k1, k2, k3, k4: seq<Category> :=
      AllCategories, [Billing, FeatureRequest, Bug, Other], [FeatureRequest, Bug, Other], [Bug, Other], [Other];
    assert k0[1..] == k1 && k1[1..] == k2 && k2[1..] == k3 && k3[1..] == k4 && k4[1..] == [];
    assert CategoryTotal(s, k4) == CountCategory(s, Other);
    assert CategoryTotal(s, k3) == CountCategory(s, Bug) + CategoryTotal(s, k4);
    assert CategoryTotal(s, k2) == CountCategory(s, FeatureRequest) + CategoryTotal(s, k3);
    assert CategoryTotal(s, k1) == CountCategory(s, Billing) + CategoryTotal(s, k2);
    assert CategoryTotal(s, k0) == CountCategory(s, Technical) + CategoryTotal(s, k1);
    CategoryPartition(s);
  }

  /** The status groups add up to the number of tickets, and so do the category groups. */
  lemma GroupsCoverAll(s: seq<Ticket>)
    ensures SumCounts(StatusGroups(s, AllStatuses)) == |s|
    ensures SumCounts(CategoryGroups(s, AllCategories)) == |s|
  {
    StatusGroupsSum(s, AllStatuses);
    StatusTotalAll(s);
    CategoryGroupsSum(s, AllCategories);
    CategoryTotalAll(s);
  }

  /** The groups over every status and every category: one group per value that occurs,
      and never two for the same value. */
  lemma GroupsOnePerValue(s: seq<Ticket>)
    ensures forall k :: CountStatus(s, k) > 0 ==> (k, CountStatus(s, k)) in StatusGroups(s, AllStatuses)
    ensures DistinctKeys(StatusGroups(s, AllStatuses))
    ensures forall k :: CountCategory(s, k) > 0 ==> (k, CountCategory(s, k)) in CategoryGroups(s, AllCategories)
    ensures DistinctKeys(CategoryGroups(s, AllCategories))
  {
    forall k: Status
      ensures k in AllStatuses
    {
      match k
      case Open => assert AllStatuses[0] == k;
      case InProgress => assert AllStatuses[1] == k;
      case Resolved => assert AllStatuses[2] == k;
      case Closed => assert AllStatuses[3] == k;
    }
    forall k: Category
      ensures k in AllCategories
    {
      match k
      case Technical => assert AllCategories[0] == k;
      case Billing => assert AllCategories[1] == k;
      case FeatureRequest => assert AllCategories[2] == k;
      case Bug => assert AllCategories[3] == k;
      case Other => assert AllCategories[4] == k;
    }
    StatusGroupsComplete(s, AllStatuses);
    StatusGroupsDistinct(s, AllStatuses);
    CategoryGroupsComplete(s, AllCategories);
    CategoryGroupsDistinct(s, AllCategories);
  }

  /** getTicketStats: admin only. `since` is the instant seven days before the request. */
  method GetTicketStats(store: TicketCollection, user: Option<Caller>, since: nat) returns (r: Response<TicketStats>)
    ensures (user.None? || !IsAdmin(user.value)) <==> r == Forbidden(AccessDenied)
    ensures !r.Forbidden? ==> r.Ok?
    ensures r.Ok? ==>
      && r.body.totalTickets == |store.tickets|
      && r.body.openTickets == CountStatus(store.tickets, Open)
      && r.body.inProgressTickets == CountStatus(store.tickets, InProgress)
      && r.body.resolvedTickets == CountStatus(store.tickets, Resolved)
      && r.body.urgentTickets == |Filter(store.tickets, HasPriority(Urgent))|
      && r.body.recentTickets == |Filter(store.tickets, CreatedSince(since))|
      && SumCounts(r.body.ticketsByStatus) == r.body.totalTickets
      && SumCounts(r.body.ticketsByCategory) == r.body.totalTickets
      && r.body.totalTickets >= r.body.openTickets + r.body.inProgressTickets + r.body.resolvedTickets
      && (forall i :: 0 <= i < |r.body.ticketsByStatus| ==>
            r.body.ticketsByStatus[i].1 == CountStatus(store.tickets, r.body.ticketsByStatus[i].0))
      && (forall i :: 0 <= i < |r.body.ticketsByCategory| ==>
            r.body.ticketsByCategory[i].1 == CountCategory(store.tickets, r.body.ticketsByCategory[i].0))
      && (forall k :: CountStatus(store.tickets, k) > 0 ==> (k, CountStatus(store.tickets, k)) in r.body.ticketsByStatus)
      && DistinctKeys(r.body.ticketsByStatus)
      && (forall k :: CountCategory(store.tickets, k) > 0 ==> (k, CountCategory(store.tickets, k)) in r.body.ticketsByCategory)
      && DistinctKeys(r.body.ticketsByCategory)
  {
    if user.None? || !IsAdmin(user.value) {
      return Forbidden(AccessDenied);
    }
    var s := store.tickets;
    StatusPartition(s);
    GroupsCoverAll(s);
    GroupsOnePerValue(s);
    r := Ok("", TicketStats(|s|, CountStatus(s, Open), CountStatus(s, InProgress), CountStatus(s, Resolved),
                           |Filter(s, HasPriority(Urgent))|, |Filter(s, CreatedSince(since))|,
                           CategoryGroups(s, AllCategories), StatusGroups(s, AllStatuses)));
  }

  function HasId(id: Id): Ticket -> bool {
    (t: Ticket) => t.id == id
  }

  /** deleteTicket: admin only; removes the one ticket with that id. */
  method DeleteTicket(store: TicketCollection, user: Option<Caller>, id: Id) returns (r: Response<()>)
    requires store.Valid()
    modifies store
    ensures store.Valid()
    ensures (user.None? || !IsAdmin(user.value)) ==> r == Forbidden(AccessDenied)
    ensures !r.Ok? ==> store.tickets == old(store.tickets)
    ensures user.Some? && IsAdmin(user.value) ==>
      (r.Ok? <==> exists i :: 0 <= i < |old(store.tickets)| && old(store.tickets)[i].id == id)
    ensures user.Some? && IsAdmin(user.value) && !r.Ok? ==> r == NotFound(TicketNotFound)
    ensures r.Ok? ==>
      && r.message == "Ticket deleted successfully"
      && (exists i :: 0 <= i < |old(store.tickets)| && old(store.tickets)[i].id == id
                      && store.tickets == RemoveAt(old(store.tickets), i))
      && (forall i :: 0 <= i < |store.tickets| ==> store.tickets[i].id != id)
      && (forall i :: 0 <= i < |old(store.tickets)| && old(store.tickets)[i].id != id ==>
            old(store.tickets)[i] in store.tickets)
  {
    if user.None? || !IsAdmin(user.value) {
      return Forbidden(AccessDenied);
    }
    var i := IndexWhere(store.tickets, HasId(id));
    if i.None? {
      return NotFound(TicketNotFound);
    }
    RemoveUniqueKey(store.tickets, i.value, TicketId);
    store.Remove(i.value);
    r := Ok("Ticket deleted successfully", ());
  }
}
