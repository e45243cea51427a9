/** The Lead schema (enums, defaults, required paths) and the Lead collection. */
module LeadModel {
  import opened Common
  import Seqs

  datatype Source = Website | Referral | Social | Direct | OtherSource
  datatype LeadStatus = New | Contacted | Qualified | Lost

  const DefaultSource: Source := Website
  const DefaultLeadStatus: LeadStatus := New

  function SourceName(s: Source): string {
    match s
    case Website => "website"
    case Referral => "referral"
    case Social => "social"
    case Direct => "direct"
    case OtherSource => "other"
  }

  function LeadStatusName(s: LeadStatus): string {
    match s
    case New => "new"
    case Contacted => "contacted"
    case Qualified => "qualified"
    case Lost => "lost"
  }

  /** The schema's enum check on `source`. */
  function ParseSource(s: string): (r: Option<Source>)
    ensures r.Some? ==> SourceName(r.value) == s
    ensures r.None? ==> forall x :: SourceName(x) != s
  {
    if s == "website" then Some(Website)
    else if s == "referral" then Some(Referral)
    else if s == "social" then Some(Social)
    else if s == "direct" then Some(Direct)
    else if s == "other" then Some(OtherSource)
    else None
  }

  /** The schema's enum check on `status`. */
  function ParseLeadStatus(s: string): (r: Option<LeadStatus>)
    ensures r.Some? ==> LeadStatusName(r.value) == s
    ensures r.None? ==> forall x :: LeadStatusName(x) != s
  {
    if s == "new" then Some(New)
    else if s == "contacted" then Some(Contacted)
    else if s == "qualified" then Some(Qualified)
    else if s == "lost" then Some(Lost)
    else None
  }

  lemma LeadParseRoundTrip(s: Source, st: LeadStatus)
    ensures ParseSource(SourceName(s)) == Some(s)
    ensures ParseLeadStatus(LeadStatusName(st)) == Some(st)
  {
  }

  /** The stored paths of a lead other than `_id` and the timestamps. */
  datatype LeadFields = LeadFields(
    name: string,
    email: string,
    phone: string,
    company: Option<string>,
    source: Source,
    status: LeadStatus,
    notes: Option<string>,
    createdBy: Id)

  datatype Lead = Lead(id: Id, createdAt: nat, fields: LeadFields)

  function LeadId(l: Lead): int {
    l.id
  }

  function LeadCreatedAt(l: Lead): int {
    l.createdAt
  }

  /** `required: true` on name, email and phone. */
  predicate MeetsSchema(f: LeadFields) {
    f.name != "" && f.email != "" && f.phone != ""
  }

  class LeadCollection {
    var leads: seq<Lead>
    var nextId: nat

    ghost predicate Valid()
      reads this
    {
      && Seqs.IncreasingBy(leads, LeadId)
      && Seqs.IncreasingBy(leads, LeadCreatedAt)
      && (forall i :: 0 <= i < |leads| ==> leads[i].id < nextId && leads[i].createdAt < nextId)
      && (forall i :: 0 <= i < |leads| ==> MeetsSchema(leads[i].fields))
    }

    constructor ()
      ensures Valid() && leads == []
    {
      leads := [];
      nextId := 0;
    }

    /** `Lead.create`. */
    method Insert(f: LeadFields) returns (l: Lead)
      requires Valid() && MeetsSchema(f)
      modifies this
      ensures Valid()
      ensures l == Lead(old(nextId), old(nextId), f)
      ensures leads == old(leads) + [l]
      ensures forall i :: 0 <= i < |old(leads)| ==> old(leads)[i].id < l.id
    {
      l := Lead(nextId, nextId, f);
      leads := leads + [l];
      nextId := nextId + 1;
    }

    /** The write half of `findOneAndUpdate`. */
    method Replace(i: nat, f: LeadFields)
      requires Valid() && i < |leads| && MeetsSchema(f)
      modifies this
      ensures Valid()
      ensures leads == old(leads)[i := old(leads)[i].(fields := f)]
    {
      leads := leads[i := leads[i].(fields := f)];
    }

    /** The write half of `findOneAndDelete`. */
    method Remove(i: nat)
      requires Valid() && i < |leads|
      modifies this
      ensures Valid()
      ensures leads == Seqs.RemoveAt(old(leads), i)
    {
      leads := Seqs.RemoveAt(leads, i);
    }
  }
}
