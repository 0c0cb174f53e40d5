/**
 Contact keys of the historical import: what the service stores on a lead, and what the
 database compares when it searches for a collision.
 */
module ImportContacts {
  import opened Prelude
  import opened Text

  // ---------------------------------------------------------------- characters

  function LowerChar(c: char): char { if 'A' <= c <= 'Z' then c + ('a' - 'A') else c }

  function Lower(s: string): (r: string)
    ensures |r| == |s| && forall i :: 0 <= i < |s| ==> r[i] == LowerChar(s[i])
  {
    seq(|s|, i requires 0 <= i < |s| => LowerChar(s[i]))
  }

  predicate Digit(c: char) { '0' <= c <= '9' }

  predicate Separator(c: char) { c == ' ' || c == '(' || c == ')' || c == '.' || c == '-' }

  function WithoutSeparators(s: string): string
    decreases |s|
  {
    if s == [] then [] else (if Separator(s[0]) then [] else [s[0]]) + WithoutSeparators(s[1..])
  }

  // ---------------------------------------------------------------- the service

  /** One to 64 characters, one '@', and a domain with an inner dot; no white space. */
  predicate EmailForm(s: string) {
    exists a :: 0 < a <= 64 && a < |s| && s[a] == '@'
      && (forall i :: 0 <= i < |s| ==> !IsSpace(s[i]) && (s[i] == '@' ==> i == a))
      && exists d :: a + 1 < d < |s| - 1 && s[d] == '.'
  }

  function NormalizeEmail(value: Option<string>): Option<string> {
    if value.None? then None
    else
      var email := Lower(Trim(value.value));
      if email != "" && |email| <= 254 && EmailForm(email) then Some(email) else None
  }

  /** The number without its leading '+'. */
  function Unsigned(s: string): string { if s != [] && s[0] == '+' then s[1..] else s }

  predicate PhoneForm(s: string) {
    Unsigned(s) != [] && forall i :: 0 <= i < |Unsigned(s)| ==> Digit(Unsigned(s)[i]) || Separator(Unsigned(s)[i])
  }

  predicate CompactForm(s: string) {
    8 <= |Unsigned(s)| <= 15 && forall i :: 0 <= i < |Unsigned(s)| ==> Digit(Unsigned(s)[i])
  }

  function NormalizePhone(value: Option<string>): Option<string> {
    if value.None? then None
    else
      var phone := Trim(value.value);
      if phone == "" || !PhoneForm(phone) then None
      else
        var compact := WithoutSeparators(phone);
        if CompactForm(compact) then Some(compact) else None
  }

  // ---------------------------------------------------------------- the database

  /** PostgreSQL's btrim removes ASCII spaces only. */
  function SpacesLeft(s: string): string
    decreases |s|
  {
    if s != [] && s[0] == ' ' then SpacesLeft(s[1..]) else s
  }

  function SpacesRight(s: string): string
    decreases |s|
  {
    if s != [] && s[|s| - 1] == ' ' then SpacesRight(s[..|s| - 1]) else s
  }

  function BTrim(s: string): string { SpacesRight(SpacesLeft(s)) }

  function EmailKey(value: Option<string>): Option<string> {
    if value.None? then None else Some(Lower(BTrim(value.value)))
  }

  function PhoneKey(value: Option<string>): Option<string> {
    if value.Some? && PhoneForm(BTrim(value.value)) then Some(WithoutSeparators(BTrim(value.value))) else None
  }

  // ---------------------------------------------------------------- laws

  lemma LowerIsIdempotent(s: string)
    ensures Lower(Lower(s)) == Lower(s)
  {
  }

  lemma LowerKeepsSpaces(s: string)
    ensures forall i :: 0 <= i < |s| ==> (IsSpace(Lower(s)[i]) <==> IsSpace(s[i]))
  {
  }

  lemma NormalizedEmailIsTrimmed(value: Option<string>)
    requires NormalizeEmail(value).Some?
    ensures var e := NormalizeEmail(value).value; e != "" && Trimmed(e) && Lower(e) == e && EmailForm(e) && |e| <= 254
  {
    LowerIsIdempotent(Trim(value.value));
  }

  /** Normalizing a normalized e-mail changes nothing, and the database compares it as it is. */
  lemma EmailIsAFixpoint(value: Option<string>)
    ensures NormalizeEmail(NormalizeEmail(value)) == NormalizeEmail(value)
    ensures EmailKey(NormalizeEmail(value)) == NormalizeEmail(value)
  {
    if NormalizeEmail(value).Some? {
      var e := NormalizeEmail(value).value;
      NormalizedEmailIsTrimmed(value);
      TrimmedIsFixed(e);
      assert e[0] != ' ' && e[|e| - 1] != ' ';
    }
  }

  lemma {:induction false} NothingToRemove(s: string)
    requires forall i :: 0 <= i < |s| ==> !Separator(s[i])
    ensures WithoutSeparators(s) == s
    decreases |s|
  {
    if s != [] {
      NothingToRemove(s[1..]);
    }
  }

  lemma CompactCharacters(s: string)
    requires CompactForm(s)
    ensures forall i :: 0 <= i < |s| ==> Digit(s[i]) || s[i] == '+'
  {
    forall i | 0 <= i < |s| ensures Digit(s[i]) || s[i] == '+' {
      if s[0] == '+' && i > 0 {
        assert s[i] == Unsigned(s)[i - 1];
      }
    }
  }

  lemma CompactIsPlain(s: string)
    requires CompactForm(s)
    ensures s != "" && PhoneForm(s) && Trimmed(s) && WithoutSeparators(s) == s && s[0] != ' ' && s[|s| - 1] != ' '
  {
    CompactCharacters(s);
    assert forall i :: 0 <= i < |s| ==> !Separator(s[i]) && !IsSpace(s[i]);
    NothingToRemove(s);
  }

  lemma NoSpacesToTrim(s: string)
    requires s != "" && s[0] != ' ' && s[|s| - 1] != ' '
    ensures BTrim(s) == s
  {
  }

  lemma CompactIsFixed(p: string)
    requires CompactForm(p)
    ensures NormalizePhone(Some(p)) == Some(p) && PhoneKey(Some(p)) == Some(p)
  {
    assert p != "" && PhoneForm(p) && WithoutSeparators(p) == p by { CompactIsPlain(p); }
    assert Trim(p) == p by {
      CompactIsPlain(p);
      TrimmedIsFixed(p);
    }
    assert BTrim(p) == p by {
      CompactIsPlain(p);
      NoSpacesToTrim(p);
    }
  }

  /** Normalizing a normalized phone changes nothing, and the database compares it as it is. */
  lemma PhoneIsAFixpoint(value: Option<string>)
    ensures NormalizePhone(NormalizePhone(value)) == NormalizePhone(value)
    ensures PhoneKey(NormalizePhone(value)) == NormalizePhone(value)
  {
    if NormalizePhone(value).Some? {
      CompactIsFixed(NormalizePhone(value).value);
    }
  }

  /** On a stored contact, the search finds exactly the equal normalized ones. */
  lemma SearchFindsStoredContacts(stored: Option<string>, wanted: Option<string>)
    ensures NormalizeEmail(wanted).Some? ==>
        (EmailKey(NormalizeEmail(stored)) == NormalizeEmail(wanted) <==>
            NormalizeEmail(stored) == NormalizeEmail(wanted))
    ensures NormalizePhone(wanted).Some? ==>
        (PhoneKey(NormalizePhone(stored)) == NormalizePhone(wanted) <==>
            NormalizePhone(stored) == NormalizePhone(wanted))
  {
    EmailIsAFixpoint(stored);
    PhoneIsAFixpoint(stored);
  }

  /**
   On raw text the two sides trim differently: the service removes all white space at the
   ends, the database only spaces.  They agree exactly when no other white space is there.
   */
  lemma RawEmailIsFoundIff(value: string)
    requires NormalizeEmail(Some(value)).Some?
    ensures EmailKey(Some(value)) == NormalizeEmail(Some(value)) <==> Trimmed(BTrim(value))
  {
    var s := BTrim(value);
    NormalizedEmailIsTrimmed(Some(value));
    if Trimmed(s) {
      TrimOfSpaces(value);
      TrimmedIsFixed(s);
    } else {
      LowerKeepsSpaces(s);
      assert !Trimmed(Lower(s));
    }
  }

  lemma {:induction false} TrimLeftOfSpaces(s: string)
    ensures TrimLeft(SpacesLeft(s)) == TrimLeft(s)
    decreases |s|
  {
    if s != [] && s[0] == ' ' {
      TrimLeftOfSpaces(s[1..]);
    }
  }

  lemma {:induction false} TrimRightOfSpaces(s: string)
    ensures TrimRight(SpacesRight(s)) == TrimRight(s)
    decreases |s|
  {
    if s != [] && s[|s| - 1] == ' ' {
      TrimRightOfSpaces(s[..|s| - 1]);
    }
  }

  /** Removing trailing white space leaves the start alone unless nothing else is there. */
  lemma {:induction false} TrimSidesCommute(s: string)
    ensures TrimRight(TrimLeft(s)) == TrimLeft(TrimRight(s))
    decreases |s|
  {
    if s == [] {
    } else if IsSpace(s[0]) {
      TrimSidesCommute(s[1..]);
      TrimRightDropsFirst(s);
    } else {
      TrimRightEnds(s);
    }
  }

  lemma {:induction false} TrimRightDropsFirst(s: string)
    requires s != [] && IsSpace(s[0])
    ensures TrimLeft(TrimRight(s)) == TrimLeft(TrimRight(s[1..]))
    decreases |s|
  {
    if IsSpace(s[|s| - 1]) {
      if |s| > 1 {
        assert s[1..][..|s| - 2] == s[..|s| - 1][1..];
        TrimRightDropsFirst(s[..|s| - 1]);
      }
    }
  }

  lemma TrimOfSpaces(value: string)
    ensures Trim(BTrim(value)) == Trim(value)
  {
    TrimLeftOfSpaces(value);
    TrimRightOfSpaces(SpacesLeft(value));
    TrimSidesCommute(BTrim(value));
    TrimSidesCommute(SpacesLeft(value));
  }

  lemma {:induction false} SpacesLeftStarts(s: string)
    ensures SpacesLeft(s) != [] ==> SpacesLeft(s)[0] != ' '
    decreases |s|
  {
    if s != [] && s[0] == ' ' {
      SpacesLeftStarts(s[1..]);
    }
  }

  lemma {:induction false} SpacesRightEnds(s: string)
    ensures SpacesRight(s) != [] ==> SpacesRight(s)[|SpacesRight(s)| - 1] != ' ' && SpacesRight(s)[0] == s[0]
    decreases |s|
  {
    if s != [] && s[|s| - 1] == ' ' {
      SpacesRightEnds(s[..|s| - 1]);
    }
  }

  /** Likewise for a raw phone: the database finds it exactly when only spaces surround it. */
  lemma RawPhoneIsFoundIff(value: string)
    requires NormalizePhone(Some(value)).Some?
    ensures PhoneKey(Some(value)) == NormalizePhone(Some(value)) <==> Trimmed(BTrim(value))
  {
    var s := BTrim(value);
    TrimOfSpaces(value);
    SpacesLeftStarts(value);
    SpacesRightEnds(SpacesLeft(value));
    if PhoneForm(s) {
      PhoneEndsInNoSpace(s);
    }
    if Trimmed(s) {
      TrimmedIsFixed(s);
    }
  }

  /** White space other than a space is no part of a phone. */
  lemma PhoneEndsInNoSpace(s: string)
    requires PhoneForm(s) && s[0] != ' ' && s[|s| - 1] != ' '
    ensures Trimmed(s)
  {
    var rest := Unsigned(s);
    assert rest[|rest| - 1] == s[|s| - 1];
    assert Digit(rest[0]) || Separator(rest[0]);
    assert Digit(rest[|rest| - 1]) || Separator(rest[|rest| - 1]);
  }

  lemma PlainAddress()
    ensures NormalizeEmail(Some("a@b.co")) == Some("a@b.co") && Trimmed("a@b.co")
  {
    var plain := "a@b.co";
    TrimmedIsFixed(plain);
    assert forall i :: 0 <= i < |plain| ==> LowerChar(plain[i]) == plain[i];
    assert Lower(plain) == plain;
    assert plain[1] == '@' && plain[3] == '.';
    assert forall i :: 0 <= i < |plain| ==> !IsSpace(plain[i]);
    assert EmailForm(plain);
  }

  /** A tab before the address hides a raw e-mail from the search, though it normalizes to the same contact. */
  lemma TabHidesARawEmail()
    ensures NormalizeEmail(Some(['\t'] + "a@b.co")) == NormalizeEmail(Some("a@b.co"))
    ensures EmailKey(Some(['\t'] + "a@b.co")) != NormalizeEmail(Some("a@b.co"))
  {
    var raw, plain := ['\t'] + "a@b.co", "a@b.co";
    PlainAddress();
    TrimmedIsFixed(plain);
    assert raw[1..] == plain;
    assert TrimLeft(raw) == TrimLeft(plain) == plain;
    assert BTrim(raw) == raw by {
      assert SpacesLeft(raw) == raw && raw[|raw| - 1] == 'o';
    }
    RawEmailIsFoundIff(raw);
  }
}
