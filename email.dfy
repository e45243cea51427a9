/** The e-mail format test `/^[^\s@]+@[^\s@]+\.[^\s@]+$/` shared by the register
    controller and the three client forms. */
module EmailFormat {
  import opened Text

  /** A character of the class `[^\s@]`. */
  predicate PlainChar(c: char) {
    !IsSpace(c) && c != '@'
  }

  predicate PlainAt(s: string, k: nat)
    requires k < |s|
  {
    PlainChar(s[k])
  }

  /** The regular expression, read as positions: a plain run, an '@' at i, a plain run,
      a '.' at j, a plain run, and nothing else. ('.' is itself a plain character.) */
  ghost predicate MatchesRegex(s: string) {
    exists i, j ::
      && 0 < i && i + 1 < j && j + 1 < |s|
      && s[i] == '@' && s[j] == '.'
      && (forall k :: 0 <= k < |s| && k != i ==> PlainAt(s, k))
  }

  function CountChar(s: string, c: char): nat {
    if s == [] then 0 else (if s[0] == c then 1 else 0) + CountChar(s[1..], c)
  }

  /** Position of the first `c` in `s`, or |s| when there is none. */
  function IndexOf(s: string, c: char): (r: nat)
    ensures r <= |s|
    ensures r < |s| ==> s[r] == c
    ensures forall k :: 0 <= k < r ==> s[k] != c
  {
    if s == [] then 0
    else if s[0] == c then 0
    else 1 + IndexOf(s[1..], c)
  }

  /** The text before the first '@'. */
  function LocalPart(s: string): string {
    s[..IndexOf(s, '@')]
  }

  /** The text after the first '@'. */
  function DomainPart(s: string): string {
    var at := IndexOf(s, '@');
    if at < |s| then s[at + 1..] else []
  }

  predicate DomainHasDot(d: string) {
    exists j :: 0 < j < |d| - 1 && d[j] == '.'
  }

  /** The format as plain conditions: no white space anywhere, exactly one '@', a
      non-empty local part, and a domain holding a '.' with text on both sides. */
  predicate IsValidEmail(s: string) {
    && NoSpace(s)
    && CountChar(s, '@') == 1
    && LocalPart(s) != []
    && DomainHasDot(DomainPart(s))
  }

  lemma {:induction false} CountSplit(s: string, c: char, i: nat)
    requires i <= |s|
    ensures CountChar(s, c) == CountChar(s[..i], c) + CountChar(s[i..], c)
  {
    if i > 0 {
      assert s[..i][1..] == s[1..][..i - 1];
      assert s[i..] == s[1..][i - 1..];
      CountSplit(s[1..], c, i - 1);
    }
  }

  lemma {:induction false} CountZero(s: string, c: char)
    ensures CountChar(s, c) == 0 <==> forall k :: 0 <= k < |s| ==> s[k] != c
  {
    if s != [] {
      CountZero(s[1..], c);
      assert forall k :: 1 <= k < |s| ==> s[k] == s[1..][k - 1];
    }
  }

  /** Exactly one occurrence of `c`, at position i. */
  lemma CountOneAt(s: string, c: char, i: nat)
    requires i < |s| && s[i] == c
    ensures CountChar(s, c) == 1 <==> forall k :: 0 <= k < |s| && k != i ==> s[k] != c
  {
    CountSplit(s, c, i);
    CountSplit(s[i..], c, 1);
    assert s[i..][..1] == [c];
    assert s[i..][1..] == s[i + 1..];
    CountZero(s[..i], c);
    CountZero(s[i + 1..], c);
    assert forall k :: 0 <= k < i ==> s[..i][k] == s[k];
    assert forall k :: i < k < |s| ==> s[i + 1..][k - i - 1] == s[k];
  }

  /** The plain conditions are exactly the regular expression. */
  lemma EmailRegexIffValid(s: string)
    ensures MatchesRegex(s) <==> IsValidEmail(s)
  {
    if MatchesRegex(s) {
      var i, j :| && 0 < i && i + 1 < j && j + 1 < |s|
                  && s[i] == '@' && s[j] == '.'
                  && (forall k :: 0 <= k < |s| && k != i ==> PlainAt(s, k));
      forall k | 0 <= k < |s| && k != i
        ensures PlainChar(s[k])
      {
        assert PlainAt(s, k);
      }
      assert IndexOf(s, '@') == i;
      CountOneAt(s, '@', i);
      var d := DomainPart(s);
      assert d[j - i - 1] == '.';
      assert DomainHasDot(d);
      assert IsValidEmail(s);
    }
    if IsValidEmail(s) {
      var at := IndexOf(s, '@');
      if at == |s| {
        CountZero(s, '@');
      }
      assert at < |s|;
      CountOneAt(s, '@', at);
      var d := DomainPart(s);
      var j' :| 0 < j' < |d| - 1 && d[j'] == '.';
      var j := at + 1 + j';
      assert s[j] == '.';
      assert forall k :: 0 <= k < |s| && k != at ==> PlainChar(s[k]);
      assert forall k :: 0 <= k < |s| && k != at ==> PlainAt(s, k);
      assert MatchesRegex(s);
    }
  }

  /** A string that passes the format has no white space, so `trim` leaves it as it is. */
  lemma ValidEmailIsTrimmed(s: string)
    requires IsValidEmail(s)
    ensures Trim(s) == s && NormalizeEmail(s) == ToLower(s)
  {
    TrimNoSpace(s);
    LowerKeepsNoSpace(s);
    TrimNoSpace(ToLower(s));
  }

  /** Lower-casing keeps a string in the format: it maps '@', '.' and the plain characters
      to themselves or to plain characters. */
  lemma LowerKeepsRegex(email: string)
    requires MatchesRegex(email)
    ensures MatchesRegex(ToLower(email))
  {
    var i, j :| && 0 < i && i + 1 < j && j + 1 < |email|
                && email[i] == '@' && email[j] == '.'
                && (forall k :: 0 <= k < |email| && k != i ==> PlainAt(email, k));
    var l := ToLower(email);
    assert l[i] == '@' && l[j] == '.';
    forall k | 0 <= k < |l| && k != i
      ensures PlainAt(l, k)
    {
      assert PlainAt(email, k);
    }
  }

  /** What the auth controller stores for an address in the format: its lower-case form,
      which is non-empty and still in the format. */
  lemma NormalizedEmailInFormat(email: string)
    requires MatchesRegex(email)
    ensures NormalizeEmail(email) == ToLower(email)
    ensures |NormalizeEmail(email)| == |email| > 0
    ensures MatchesRegex(NormalizeEmail(email))
  {
    EmailRegexIffValid(email);
    ValidEmailIsTrimmed(email);
    LowerKeepsRegex(email);
  }
}
