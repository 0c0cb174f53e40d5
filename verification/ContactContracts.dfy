/** The forms of e-mails, phones and trimmed texts as patterns over their parts and literal alphabets. */
module ContactContracts {
  import opened Prelude
  import opened Text
  import opened ImportContacts

  /** Every character is one of the alphabet. */
  predicate Over(s: string, alphabet: string) { forall i :: 0 <= i < |s| ==> s[i] in alphabet }

  predicate Blank(s: string) { forall i :: 0 <= i < |s| ==> IsSpace(s[i]) }

  /** ASCII spaces only. */
  predicate Spaces(s: string) { forall i :: 0 <= i < |s| ==> s[i] == ' ' }

  /** No white space and no '@'. */
  predicate Part(s: string) { forall i :: 0 <= i < |s| ==> !IsSpace(s[i]) && s[i] != '@' }

  // ---------------------------------------------------------------- trimming

  lemma {:induction false} TrimLeftSplits(s: string) returns (front: string)
    ensures Blank(front) && s == front + TrimLeft(s) && (TrimLeft(s) != [] ==> !IsSpace(TrimLeft(s)[0]))
    decreases |s|
  {
    front := [];
    if s != [] && IsSpace(s[0]) {
      var rest := TrimLeftSplits(s[1..]);
      front := [s[0]] + rest;
      assert s == [s[0]] + s[1..];
    }
  }

  lemma {:induction false} TrimRightSplits(s: string) returns (back: string)
    ensures Blank(back) && s == TrimRight(s) + back
    ensures (TrimRight(s) != [] ==> !IsSpace(TrimRight(s)[|TrimRight(s)| - 1]))
    decreases |s|
  {
    back := [];
    if s != [] && IsSpace(s[|s| - 1]) {
      var last := s[|s| - 1];
      var rest := TrimRightSplits(s[..|s| - 1]);
      back := rest + [last];
      assert s == s[..|s| - 1] + [last];
    }
  }

  /** Trimming takes white space from both ends until neither end has any. */
  lemma TrimContract(s: string) returns (front: string, back: string)
    ensures Blank(front) && Blank(back) && s == front + Trim(s) + back && Trimmed(Trim(s))
  {
    front := TrimLeftSplits(s);
    back := TrimRightSplits(TrimLeft(s));
    TrimRightEnds(TrimLeft(s));
  }

  lemma {:induction false} SpacesLeftSplits(s: string) returns (front: string)
    ensures Spaces(front) && s == front + SpacesLeft(s) && (SpacesLeft(s) != [] ==> SpacesLeft(s)[0] != ' ')
    decreases |s|
  {
    front := [];
    if s != [] && s[0] == ' ' {
      var rest := SpacesLeftSplits(s[1..]);
      front := [s[0]] + rest;
      assert s == [s[0]] + s[1..];
    }
  }

  lemma {:induction false} SpacesRightSplits(s: string) returns (back: string)
    ensures Spaces(back) && s == SpacesRight(s) + back
    ensures SpacesRight(s) != [] ==> SpacesRight(s)[|SpacesRight(s)| - 1] != ' ' && SpacesRight(s)[0] == s[0]
    decreases |s|
  {
    back := [];
    if s != [] && s[|s| - 1] == ' ' {
      var last := s[|s| - 1];
      var rest := SpacesRightSplits(s[..|s| - 1]);
      back := rest + [last];
      assert s == s[..|s| - 1] + [last];
    }
  }

  /** The database takes ASCII spaces, and nothing else, from both ends. */
  lemma BTrimContract(s: string) returns (front: string, back: string)
    ensures Spaces(front) && Spaces(back) && s == front + BTrim(s) + back
    ensures BTrim(s) != [] ==> BTrim(s)[0] != ' ' && BTrim(s)[|BTrim(s)| - 1] != ' '
  {
    front := SpacesLeftSplits(s);
    back := SpacesRightSplits(SpacesLeft(s));
  }

  // ---------------------------------------------------------------- letters and digits

  /** The capital letters, and no other characters, become the small ones at the same place of the alphabet. */
  lemma LowerContract(s: string, i: nat)
    requires i < |s|
    ensures |Lower(s)| == |s|
    ensures Lower(s)[i] != s[i] <==> 'A' <= s[i] <= 'Z'
    ensures 'A' <= s[i] <= 'Z' ==>
        'a' <= Lower(s)[i] <= 'z' && Lower(s)[i] as int - 'a' as int == s[i] as int - 'A' as int
  {
  }

  lemma DigitsAndSeparators(c: char)
    ensures Digit(c) <==> c in "0123456789"
    ensures Separator(c) <==> c in " ().-"
  {
    if Digit(c) {
      var k := c as int - '0' as int;
      assert "0123456789"[k] == c;
    }
  }

  /** Separators are dropped, everything else is kept in order. */
  lemma {:induction false} WithoutSeparatorsContract(first: string, c: char)
    ensures WithoutSeparators([]) == []
    ensures WithoutSeparators(first + [c]) == WithoutSeparators(first) + if c in " ().-" then [] else [c]
    decreases |first|
  {
    var all := first + [c];
    DigitsAndSeparators(c);
    if first == [] {
      assert all == [c] && all[1..] == [];
    } else {
      var rest := first[1..];
      WithoutSeparatorsContract(rest, c);
      assert all[0] == first[0] && all[1..] == rest + [c];
    }
  }

  // ---------------------------------------------------------------- patterns

  /** local@name.end, all parts without white space and '@', a local part of 1 to 64 characters. */
  predicate Address(s: string, local: string, name: string, end: string) {
    && s == local + "@" + name + "." + end && Part(local) && Part(name) && Part(end)
    && 1 <= |local| <= 64 && name != "" && end != ""
  }

  lemma EmailFormHasParts(s: string) returns (local: string, name: string, end: string)
    requires EmailForm(s)
    ensures Address(s, local, name, end)
  {
    var a :| 0 < a <= 64 && a < |s| && s[a] == '@'
      && (forall i :: 0 <= i < |s| ==> !IsSpace(s[i]) && (s[i] == '@' ==> i == a))
      && exists d :: a + 1 < d < |s| - 1 && s[d] == '.';
    var d :| a + 1 < d < |s| - 1 && s[d] == '.';
    local, name, end := s[..a], s[a + 1..d], s[d + 1..];
    assert s == s[..a] + [s[a]] + s[a + 1..d] + [s[d]] + s[d + 1..];
  }

  lemma PartsAreEmailForm(s: string, local: string, name: string, end: string)
    requires Address(s, local, name, end)
    ensures EmailForm(s)
  {
    var a, d := |local|, |local| + 1 + |name|;
    assert s[a] == '@' && s[d] == '.' && a + 1 < d < |s| - 1;
    assert s == local + "@" + (name + "." + end);
    forall i | 0 <= i < |s| ensures !IsSpace(s[i]) && (s[i] == '@' ==> i == a) {
      if i < a {
        assert s[i] == local[i];
      } else if a < i < d {
        assert s[i] == name[i - a - 1];
      } else if d < i {
        assert s[i] == end[i - d - 1];
      }
    }
  }

  /**
   An e-mail is normalized exactly when its trimmed small-letter form is such an address of at most
   254 characters.
   */
  lemma EmailContract(value: string)
    ensures var email := Lower(Trim(value));
      NormalizeEmail(Some(value)) ==
        if |email| <= 254 && (exists local, name, end :: Address(email, local, name, end)) then Some(email) else None
  {
    var email := Lower(Trim(value));
    if EmailForm(email) {
      var local, name, end := EmailFormHasParts(email);
      assert Address(email, local, name, end);
    }
    if local, name, end :| Address(email, local, name, end) {
      PartsAreEmailForm(email, local, name, end);
    }
  }

  /** An optional plus sign and then only such characters, as many as allowed. */
  predicate Signed(s: string, alphabet: string, least: nat, most: nat) {
    || (least <= |s| <= most && Over(s, alphabet))
    || (s != "" && s[0] == '+' && least <= |s| - 1 <= most && Over(s[1..], alphabet))
  }

  lemma PhoneFormIsSigned(s: string)
    ensures PhoneForm(s) <==> Signed(s, "0123456789 ().-", 1, |s|)
    ensures CompactForm(s) <==> Signed(s, "0123456789", 8, 15)
  {
    var body := Unsigned(s);
    forall i | 0 <= i < |body|
      ensures Digit(body[i]) <==> body[i] in "0123456789"
      ensures Digit(body[i]) || Separator(body[i]) <==> body[i] in "0123456789 ().-"
    {
      DigitsAndSeparators(body[i]);
      assert "0123456789 ().-" == "0123456789" + " ().-";
    }
    assert s != [] && s[0] == '+' ==> s[0] !in "0123456789 ().-" && s[0] !in "0123456789";
  }

  /**
   A phone is normalized exactly when its trimmed form has digits and separators only behind an
   optional plus sign, and 8 to 15 digits remain; the database searches by the same compact form.
   */
  lemma PhoneContract(value: string)
    ensures var phone := Trim(value);
      NormalizePhone(Some(value)) ==
        if Signed(phone, "0123456789 ().-", 1, |phone|) && Signed(WithoutSeparators(phone), "0123456789", 8, 15)
        then Some(WithoutSeparators(phone)) else None
    ensures var phone := BTrim(value);
      PhoneKey(Some(value)) ==
        if Signed(phone, "0123456789 ().-", 1, |phone|) then Some(WithoutSeparators(phone)) else None
  {
    PhoneFormIsSigned(Trim(value));
    PhoneFormIsSigned(WithoutSeparators(Trim(value)));
    PhoneFormIsSigned(BTrim(value));
  }
}
