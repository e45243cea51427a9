/** The lead handlers. Unlike tickets there is no admin bypass: every handler works on the
    caller's own leads only, whatever the caller's role. */
module LeadController {
  import opened Common
  import opened Seqs
  import opened Pagination
  import opened LeadModel

  const LeadNotFound: string := "Lead not found"
  const DuplicateLead: string := "A lead with this email or phone already exists"
  const DuplicateKeyCode: int := 11000

  /** Request body of createLead; "" stands for a missing (falsy) string. */
  datatype LeadBody = LeadBody(
    name: string,
    email: string,
    phone: string,
    company: Option<string>,
    source: string,
    status: string,
    notes: Option<string>)

  /** An error the store raises on insertion, with its driver error code if it has one. */
  datatype DbFault = DbFault(code: Option<int>)

  datatype LeadQuery = LeadQuery(status: string, source: string, page: Option<nat>, limit: Option<nat>)

  /** Request body of updateLead, applied as sent. */
  datatype LeadPatch = LeadPatch(
    name: Option<string>,
    email: Option<string>,
    phone: Option<string>,
    company: Option<string>,
    source: Option<string>,
    status: Option<string>,
    notes: Option<string>,
    createdBy: Option<Id>)

  datatype LeadUpdate = LeadUpdate(
    name: Option<string>,
    email: Option<string>,
    phone: Option<string>,
    company: Option<string>,
    source: Option<Source>,
    status: Option<LeadStatus>,
    notes: Option<string>,
    createdBy: Option<Id>)

  /** A filter document: `createdBy` is always present. */
  datatype LeadFilter = LeadFilter(id: Option<Id>, createdBy: Id, status: Option<string>, source: Option<string>)

  datatype LeadPage = LeadPage(leads: seq<Lead>, pagination: PageInfo)

  predicate Matches(f: LeadFilter, l: Lead) {
    && (f.id.None? || l.id == f.id.value)
    && l.fields.createdBy == f.createdBy
    && (f.status.None? || LeadStatusName(l.fields.status) == f.status.value)
    && (f.source.None? || SourceName(l.fields.source) == f.source.value)
  }

  function MatchesFn(f: LeadFilter): Lead -> bool {
    (l: Lead) => Matches(f, l)
  }

  /** The ownership rule for leads: only the creator, admins included. */
  predicate Owns(c: Caller, l: Lead) {
    l.fields.createdBy == c.id
  }

  predicate Selected(c: Caller, q: LeadQuery, l: Lead) {
    && Owns(c, l)
    && (q.status == "" || LeadStatusName(l.fields.status) == q.status)
    && (q.source == "" || SourceName(l.fields.source) == q.source)
  }

  function SelectedFn(c: Caller, q: LeadQuery): Lead -> bool {
    (l: Lead) => Selected(c, q, l)
  }

  function Matching(s: seq<Lead>, c: Caller, q: LeadQuery): seq<Lead> {
    Filter(s, SelectedFn(c, q))
  }

  /** How the catch block answers a store error: a duplicate key is the client's fault. */
  function FaultResponse<T>(f: DbFault): (r: Response<T>)
    ensures r.BadRequest? <==> f.code == Some(DuplicateKeyCode)
    ensures r.BadRequest? ==> r.message == DuplicateLead
    ensures !r.BadRequest? ==> r == ServerError(GenericServerError)
  {
    if f.code == Some(DuplicateKeyCode) then BadRequest(DuplicateLead) else ServerError(GenericServerError)
  }

  /** `source || "website"`, `status || "new"`. */
  function SourceOrDefault(s: string): string {
    if s == "" then SourceName(DefaultSource) else s
  }

  function StatusOrDefault(s: string): string {
    if s == "" then LeadStatusName(DefaultLeadStatus) else s
  }

  /** The update validators on a lead body. */
  function CheckPatch(p: LeadPatch): (r: Option<LeadUpdate>)
    ensures r.Some? <==>
      && (p.name.None? || p.name.value != "")
      && (p.email.None? || p.email.value != "")
      && (p.phone.None? || p.phone.value != "")
      && (p.source.None? || ParseSource(p.source.value).Some?)
      && (p.status.None? || ParseLeadStatus(p.status.value).Some?)
    ensures r.Some? ==>
      && r.value.name == p.name && r.value.email == p.email && r.value.phone == p.phone
      && r.value.company == p.company && r.value.notes == p.notes && r.value.createdBy == p.createdBy
      && (r.value.source.Some? <==> p.source.Some?)
      && (r.value.source.Some? ==> SourceName(r.value.source.value) == p.source.value)
      && (r.value.status.Some? <==> p.status.Some?)
      && (r.value.status.Some? ==> LeadStatusName(r.value.status.value) == p.status.value)
  {
    if (p.name.Some? && p.name.value == "") || (p.email.Some? && p.email.value == "")
      || (p.phone.Some? && p.phone.value == "") then None
    else
      var source := if p.source.Some? then ParseSource(p.source.value) else None;
      var status := if p.status.Some? then ParseLeadStatus(p.status.value) else None;
      if (p.source.Some? && source.None?) || (p.status.Some? && status.None?) then None
      else Some(LeadUpdate(p.name, p.email, p.phone, p.company, source, status, p.notes, p.createdBy))
  }

  function ApplyUpdate(f: LeadFields, u: LeadUpdate): LeadFields {
    LeadFields(
      u.name.GetOr(f.name),
      u.email.GetOr(f.email),
      u.phone.GetOr(f.phone),
      if u.company.Some? then u.company else f.company,
      u.source.GetOr(f.source),
      u.status.GetOr(f.status),
      if u.notes.Some? then u.notes else f.notes,
      u.createdBy.GetOr(f.createdBy))
  }

  /** Every key of an accepted body takes the value sent; a key not sent keeps its value. */
  lemma ApplyTakesBody(f: LeadFields, p: LeadPatch)
    requires CheckPatch(p).Some?
    ensures var g := ApplyUpdate(f, CheckPatch(p).value);
      && g.name == p.name.GetOr(f.name)
      && g.email == p.email.GetOr(f.email)
      && g.phone == p.phone.GetOr(f.phone)
      && g.company == (if p.company.Some? then p.company else f.company)
      && (p.source.Some? ==> SourceName(g.source) == p.source.value)
      && (p.source.None? ==> g.source == f.source)
      && (p.status.Some? ==> LeadStatusName(g.status) == p.status.value)
      && (p.status.None? ==> g.status == f.status)
      && g.notes == (if p.notes.Some? then p.notes else f.notes)
      && g.createdBy == p.createdBy.GetOr(f.createdBy)
      && (MeetsSchema(f) ==> MeetsSchema(g))
  {
  }

  /** createLead. A `fault` is an error the store raises while inserting. */
  method CreateLead(store: LeadCollection, user: Option<Caller>, body: LeadBody, fault: Option<DbFault>)
    returns (r: Response<Lead>)
    requires store.Valid()
    modifies store
    ensures store.Valid()
    ensures user.None? ==> r == Unauthorized(NotAuthenticated)
    ensures user.Some? && (body.name == "" || body.email == "" || body.phone == "") ==>
      r == BadRequest("Name, email and phone are required")
    ensures r.Created? <==>
      && user.Some? && body.name != "" && body.email != "" && body.phone != ""
      && ParseSource(SourceOrDefault(body.source)).Some? && ParseLeadStatus(StatusOrDefault(body.status)).Some?
      && fault.None?
    ensures r.Created? ==>
      && r.message == "Lead created successfully"
      && store.leads == old(store.leads) + [r.body]
      && (forall i :: 0 <= i < |old(store.leads)| ==> old(store.leads)[i].id < r.body.id)
      && r.body.fields == LeadFields(body.name, body.email, body.phone, body.company,
           ParseSource(SourceOrDefault(body.source)).value, ParseLeadStatus(StatusOrDefault(body.status)).value,
           body.notes, user.value.id)
    ensures !r.Created? ==> store.leads == old(store.leads)
    ensures r.BadRequest? && body.name != "" && body.email != "" && body.phone != "" ==> r.message == DuplicateLead
    ensures (&& user.Some? && body.name != "" && body.email != "" && body.phone != ""
             && ParseSource(SourceOrDefault(body.source)).Some? && ParseLeadStatus(StatusOrDefault(body.status)).Some?
             && fault.Some?) ==> r == FaultResponse(fault.value)
    ensures (&& user.Some? && body.name != "" && body.email != "" && body.phone != ""
             && (ParseSource(SourceOrDefault(body.source)).None? || ParseLeadStatus(StatusOrDefault(body.status)).None?))
      ==> r == ServerError(GenericServerError)
  {
    if user.None? {
      return Unauthorized(NotAuthenticated);
    }
    if body.name == "" || body.email == "" || body.phone == "" {
      return BadRequest("Name, email and phone are required");
    }
    var source := ParseSource(SourceOrDefault(body.source));
    var status := ParseLeadStatus(StatusOrDefault(body.status));
    if source.None? || status.None? {
      // a ValidationError carries no driver code
      return ServerError(GenericServerError);
    }
    if fault.Some? {
      return FaultResponse(fault.value);
    }
    var l := store.Insert(LeadFields(body.name, body.email, body.phone, body.company,
                                     source.value, status.value, body.notes, user.value.id));
    r := Created("Lead created successfully", l);
  }

  /** The filter getLeads builds: `{createdBy}`, then `status` and `source` when given. */
  method BuildListFilter(c: Caller, q: LeadQuery) returns (f: LeadFilter)
    ensures f.id.None? && f.createdBy == c.id
    ensures forall l :: Matches(f, l) <==> Selected(c, q, l)
  {
    f := LeadFilter(None, c.id, None, None);
    if q.status != "" {
      f := f.(status := Some(q.status));
    }
    if q.source != "" {
      f := f.(source := Some(q.source));
    }
  }

  /** getLeads: the caller's selected leads, newest first, one page of them. */
  method GetLeads(store: LeadCollection, user: Option<Caller>, q: LeadQuery) returns (r: Response<LeadPage>)
    requires store.Valid()
    requires q.page.GetOr(DefaultPage) >= 1 && q.limit.GetOr(DefaultLimit) >= 1
    ensures user.None? <==> r.Unauthorized?
    ensures user.None? ==> r.message == NotAuthenticated
    ensures user.Some? ==>
      var page := q.page.GetOr(DefaultPage);
      var limit := q.limit.GetOr(DefaultLimit);
      var matching := Matching(store.leads, user.value, q);
      && r.Ok?
      && r.body.leads == PageSlice(Reverse(matching), page, limit)
      && r.body.pagination == Paginate(page, limit, |matching|)
      && |r.body.leads| <= limit
      && DecreasingBy(r.body.leads, LeadCreatedAt)
      && (forall i :: 0 <= i < |r.body.leads| ==>
            r.body.leads[i] in store.leads && Selected(user.value, q, r.body.leads[i]))
  {
    if user.None? {
      return Unauthorized(NotAuthenticated);
    }
    var f := BuildListFilter(user.value, q);
    var page := q.page.GetOr(DefaultPage);
    var limit := q.limit.GetOr(DefaultLimit);
    var found := Filter(store.leads, MatchesFn(f));
    FilterExt(store.leads, MatchesFn(f), SelectedFn(user.value, q));
    FilterKeepsIncreasing(store.leads, MatchesFn(f), LeadCreatedAt);
    var sorted := Reverse(found);
    ReverseOfIncreasing(found, LeadCreatedAt);
    var leads := PageSlice(sorted, page, limit);
    assert forall i :: 0 <= i < |leads| ==> leads[i] in found;
    r := Ok("", LeadPage(leads, Paginate(page, limit, |found|)));
  }

  /** An admin's lead list is the admin's own leads: the role plays no part. */
  lemma ListIgnoresRole(s: seq<Lead>, c: Caller, role: Role, q: LeadQuery)
    ensures Matching(s, c, q) == Matching(s, c.(role := role), q)
  {
    FilterExt(s, SelectedFn(c, q), SelectedFn(c.(role := role), q));
  }

  function OwnedWithId(c: Caller, id: Id): Lead -> bool {
    (l: Lead) => l.id == id && Owns(c, l)
  }

  /** getLeadById. */
  method GetLeadById(store: LeadCollection, user: Option<Caller>, id: Id) returns (r: Response<Lead>)
    ensures user.None? ==> r == Unauthorized(NotAuthenticated)
    ensures user.Some? ==>
      (r.Ok? <==> exists i :: 0 <= i < |store.leads| && store.leads[i].id == id && Owns(user.value, store.leads[i]))
    ensures user.Some? && !r.Ok? ==> r == NotFound(LeadNotFound)
    ensures r.Ok? ==> r.body in store.leads && r.body.id == id && Owns(user.value, r.body)
  {
    if user.None? {
      return Unauthorized(NotAuthenticated);
    }
    var f := LeadFilter(Some(id), user.value.id, None, None);
    FilterFnAgree(user.value, id);
    var i := IndexWhere(store.leads, MatchesFn(f));
    if i.None? {
      return NotFound(LeadNotFound);
    }
    r := Ok("", store.leads[i.value]);
  }

  lemma FilterFnAgree(c: Caller, id: Id)
    ensures forall l :: Matches(LeadFilter(Some(id), c.id, None, None), l) <==> OwnedWithId(c, id)(l)
  {
  }

  /** updateLead: the body is applied as sent to the caller's own lead with that id. */
  method UpdateLead(store: LeadCollection, user: Option<Caller>, id: Id, body: LeadPatch) returns (r: Response<Lead>)
    requires store.Valid()
    modifies store
    ensures store.Valid()
    ensures !r.Ok? ==> store.leads == old(store.leads)
    ensures user.None? ==> r == Unauthorized(NotAuthenticated)
    ensures user.Some? ==> (r.ServerError? <==> CheckPatch(body).None?)
    ensures r.ServerError? ==> r.message == GenericServerError
    ensures user.Some? && CheckPatch(body).Some? ==>
      (r.NotFound? <==> forall i :: 0 <= i < |old(store.leads)| ==>
         !(old(store.leads)[i].id == id && Owns(user.value, old(store.leads)[i])))
    ensures r.NotFound? ==> r.message == LeadNotFound
    ensures r.Ok? ==>
      exists i :: 0 <= i < |old(store.leads)|
        && old(store.leads)[i].id == id && Owns(user.value, old(store.leads)[i])
        && r.body == old(store.leads)[i].(fields := ApplyUpdate(old(store.leads)[i].fields, CheckPatch(body).value))
        && store.leads == old(store.leads)[i := r.body]
    ensures r.Ok? ==> r.message == "Lead updated successfully"
  {
    if user.None? {
      return Unauthorized(NotAuthenticated);
    }
    var u := CheckPatch(body);
    if u.None? {
      return ServerError(GenericServerError);
    }
    var f := LeadFilter(Some(id), user.value.id, None, None);
    var i := IndexWhere(store.leads, MatchesFn(f));
    if i.None? {
      return NotFound(LeadNotFound);
    }
    var l := store.leads[i.value];
    ApplyTakesBody(l.fields, body);
    var g := ApplyUpdate(l.fields, u.value);
    store.Replace(i.value, g);
    r := Ok("Lead updated successfully", l.(fields := g));
  }

  /** deleteLead: removes the caller's own lead with that id. */
  method DeleteLead(store: LeadCollection, user: Option<Caller>, id: Id) returns (r: Response<()>)
    requires store.Valid()
    modifies store
    ensures store.Valid()
    ensures user.None? ==> r == Unauthorized(NotAuthenticated)
    ensures !r.Ok? ==> store.leads == old(store.leads)
    ensures user.Some? ==>
      (r.Ok? <==> exists i :: 0 <= i < |old(store.leads)| && old(store.leads)[i].id == id && Owns(user.value, old(store.leads)[i]))
    ensures user.Some? && !r.Ok? ==> r == NotFound(LeadNotFound)
    ensures r.Ok? ==>
      && r.message == "Lead deleted successfully"
      && (exists i :: 0 <= i < |old(store.leads)| && old(store.leads)[i].id == id && Owns(user.value, old(store.leads)[i])
                      && store.leads == RemoveAt(old(store.leads), i))
      && (forall i :: 0 <= i < |store.leads| ==> store.leads[i].id != id)
      && (forall i :: 0 <= i < |old(store.leads)| && old(store.leads)[i].id != id ==> old(store.leads)[i] in store.leads)
  {
    if user.None? {
      return Unauthorized(NotAuthenticated);
    }
    var f := LeadFilter(Some(id), user.value.id, None, None);
    var i := IndexWhere(store.leads, MatchesFn(f));
    if i.None? {
      return NotFound(LeadNotFound);
    }
    RemoveUniqueKey(store.leads, i.value, LeadId);
    store.Remove(i.value);
    r := Ok("Lead deleted successfully", ());
  }
}
