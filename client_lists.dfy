/** The list bookkeeping the two dashboard pages share: the items they hold, prepending a
    created item, replacing an edited one by id, filtering a deleted id out, and the
    WhatsApp link built from a phone number's digits. */
module ClientLists {
  import opened Common
  import opened Text
  import Seqs

  /** The parts of a lead the dashboards read; `id` is the `_id` string. */
  datatype LeadItem = LeadItem(id: string, name: string, email: string, phone: string, status: string)

  /** The parts of a task the dashboards read. */
  datatype TaskItem = TaskItem(id: string, title: string, dueDate: string, status: string)

  function LeadItemId(l: LeadItem): string {
    l.id
  }

  function TaskItemId(t: TaskItem): string {
    t.id
  }

  /** `[item, ...prev]`. */
  function Prepend<T>(x: T, s: seq<T>): (r: seq<T>)
    ensures |r| == |s| + 1 && r[0] == x && r[1..] == s
  {
    [x] + s
  }

  /** `prev.map(item => item._id === updated._id ? updated : item)`. */
  function ReplaceById<T>(s: seq<T>, x: T, idOf: T -> string): (r: seq<T>)
    ensures |r| == |s|
    ensures forall i :: 0 <= i < |s| && idOf(s[i]) == idOf(x) ==> r[i] == x
    ensures forall i :: 0 <= i < |s| && idOf(s[i]) != idOf(x) ==> r[i] == s[i]
  {
    if s == [] then []
    else [if idOf(s[0]) == idOf(x) then x else s[0]] + ReplaceById(s[1..], x, idOf)
  }

  function OtherId<T>(id: string, idOf: T -> string): T -> bool {
    (t: T) => idOf(t) != id
  }

  /** `prev.filter(item => item._id !== id)`. */
  function RemoveById<T>(s: seq<T>, id: string, idOf: T -> string): (r: seq<T>)
    ensures forall i :: 0 <= i < |r| ==> idOf(r[i]) != id && r[i] in s
    ensures forall i :: 0 <= i < |s| && idOf(s[i]) != id ==> s[i] in r
    ensures multiset(r) <= multiset(s)
  {
    Seqs.FilterMultiset(s, OtherId(id, idOf));
    Seqs.FilterKeepsPassing(s, OtherId(id, idOf));
    Seqs.Filter(s, OtherId(id, idOf))
  }

  /** Replacing keeps the ids where they were, so the list stays the same list of records. */
  lemma ReplaceKeepsIds<T>(s: seq<T>, x: T, idOf: T -> string)
    ensures forall i :: 0 <= i < |s| ==> idOf(ReplaceById(s, x, idOf)[i]) == idOf(s[i])
  {
  }

  /** Replacing again with the same item changes nothing more. */
  lemma ReplaceIdempotent<T>(s: seq<T>, x: T, idOf: T -> string)
    ensures ReplaceById(ReplaceById(s, x, idOf), x, idOf) == ReplaceById(s, x, idOf)
  {
    var r := ReplaceById(s, x, idOf);
    var rr := ReplaceById(r, x, idOf);
    assert forall i :: 0 <= i < |s| ==> rr[i] == r[i];
  }

  /** A removal made after an edit of that id leaves what a removal alone leaves. */
  lemma {:induction false} RemoveAfterReplace<T>(s: seq<T>, x: T, idOf: T -> string)
    ensures RemoveById(ReplaceById(s, x, idOf), idOf(x), idOf) == RemoveById(s, idOf(x), idOf)
  {
    if s != [] {
      RemoveAfterReplace(s[1..], x, idOf);
      assert ReplaceById(s, x, idOf)[1..] == ReplaceById(s[1..], x, idOf);
    }
  }

  /** Removing the id of an item just prepended takes it out again. */
  lemma RemovePrepended<T>(x: T, s: seq<T>, idOf: T -> string)
    ensures RemoveById(Prepend(x, s), idOf(x), idOf) == RemoveById(s, idOf(x), idOf)
  {
    assert Prepend(x, s)[1..] == s;
  }

  /** Removing twice is removing once. */
  lemma {:induction false} RemoveIdempotent<T>(s: seq<T>, id: string, idOf: T -> string)
    ensures RemoveById(RemoveById(s, id, idOf), id, idOf) == RemoveById(s, id, idOf)
  {
    Seqs.FilterIdempotent(s, OtherId(id, idOf));
  }

  const WhatsAppBase: string := "https://wa.me/"

  /** `formatPhoneNumber`: the digits of the number, in order. */
  function FormatPhoneNumber(phone: string): (r: string)
    ensures forall i :: 0 <= i < |r| ==> IsDigit(r[i])
    ensures forall c :: IsDigit(c) ==> multiset(r)[c] == multiset(phone)[c]
  {
    forall c | IsDigit(c)
      ensures multiset(Digits(phone))[c] == multiset(phone)[c]
    {
      DigitsMultiset(phone, c);
    }
    Digits(phone)
  }

  /** The digits keep their order: formatting a concatenation concatenates the formatted
      parts. */
  lemma FormatPhoneNumberKeepsOrder(a: string, b: string)
    ensures FormatPhoneNumber(a + b) == FormatPhoneNumber(a) + FormatPhoneNumber(b)
  {
    DigitsAppend(a, b);
  }

  /** `getWhatsAppUrl`: the wa.me address of the number's digits. */
  function WhatsAppUrl(phone: string): (r: string)
    ensures |r| >= |WhatsAppBase| && r[..|WhatsAppBase|] == WhatsAppBase
    ensures r[|WhatsAppBase|..] == FormatPhoneNumber(phone)
  {
    WhatsAppBase + FormatPhoneNumber(phone)
  }

  /** Numbers written with different separators give the same link, and a formatted
      number links where the raw one does. */
  lemma WhatsAppUrlUsesDigitsOnly(a: string, b: string)
    ensures Digits(a) == Digits(b) ==> WhatsAppUrl(a) == WhatsAppUrl(b)
    ensures WhatsAppUrl(FormatPhoneNumber(a)) == WhatsAppUrl(a)
  {
    DigitsIdempotent(a);
  }
}
