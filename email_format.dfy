/** The email check both intake controllers apply: the regular expression
    `^[^\s@]+@[^\s@]+\.[^\s@]+$`, and the string test that decides it. */
module EmailFormat {
  import Text

  /** The BadRequest messages of the intake checks shared by both controllers. */
  const EmailRequired := "Email is required"
  const InvalidEmailFormat := "Invalid email format"

  /** A character of the class `[^\s@]`. */
  predicate IsAtomChar(c: char) {
    c != '@' && !Text.IsJsWhitespace(c)
  }

  /** `s` matches `[^\s@]+`. */
  predicate IsAtom(s: string) {
    |s| > 0 && forall i :: 0 <= i < |s| ==> IsAtomChar(s[i])
  }

  /** `s` matches `^[^\s@]+@[^\s@]+\.[^\s@]+$`: it splits into an atom, `@`, an atom, `.`
      and an atom, for some choice of the two separating positions. */
  ghost predicate MatchesEmailRegex(s: string) {
    exists at, dot ::
      && 0 <= at && at + 1 <= dot && dot < |s|
      && s[at] == '@' && s[dot] == '.'
      && IsAtom(s[..at]) && IsAtom(s[at + 1..dot]) && IsAtom(s[dot + 1..])
  }

  /** The domain has a `.` that is neither its first nor its last character. */
  predicate HasInnerDot(domain: string) {
    exists k :: 0 < k < |domain| - 1 && domain[k] == '.'
  }

  /** The test the routes perform: no whitespace, exactly one `@`, a non-empty local part,
      and a `.` strictly inside the domain that follows the `@`. */
  predicate IsValidEmail(s: string) {
    && (forall i :: 0 <= i < |s| ==> !Text.IsJsWhitespace(s[i]))
    && '@' in s
    && var at := Text.IndexOf(s, '@');
       && 0 < at
       && '@' !in s[at + 1..]
       && HasInnerDot(s[at + 1..])
  }

  /** The string test accepts exactly the strings the regular expression matches. */
  lemma {:induction false} ValidEmailIffRegex(s: string)
    ensures IsValidEmail(s) <==> MatchesEmailRegex(s)
  {
    if IsValidEmail(s) {
      ValidEmailMatches(s);
    }
    if MatchesEmailRegex(s) {
      var at, dot :|
        && 0 <= at && at + 1 <= dot && dot < |s|
        && s[at] == '@' && s[dot] == '.'
        && IsAtom(s[..at]) && IsAtom(s[at + 1..dot]) && IsAtom(s[dot + 1..]);
      MatchIsValid(s, at, dot);
    }
  }

  lemma ValidEmailMatches(s: string)
    requires IsValidEmail(s)
    ensures MatchesEmailRegex(s)
  {
    var at := Text.IndexOf(s, '@');
    var domain := s[at + 1..];
    var k :| 0 < k < |domain| - 1 && domain[k] == '.';
    var dot := at + 1 + k;
    assert s[dot] == '.';
    forall i | 0 <= i < at ensures IsAtomChar(s[..at][i]) {
      assert s[..at][i] in s[..at];
    }
    var host, tld := s[at + 1..dot], s[dot + 1..];
    forall i | 0 <= i < |host| ensures IsAtomChar(host[i]) {
      assert host[i] == domain[i];
      assert domain[i] in domain;
    }
    forall i | 0 <= i < |tld| ensures IsAtomChar(tld[i]) {
      assert tld[i] == domain[k + 1 + i];
      assert domain[k + 1 + i] in domain;
    }
    assert IsAtom(s[..at]) && IsAtom(s[at + 1..dot]) && IsAtom(s[dot + 1..]);
  }

  lemma MatchIsValid(s: string, at: int, dot: int)
    requires 0 <= at && at + 1 <= dot && dot < |s|
    requires s[at] == '@' && s[dot] == '.'
    requires IsAtom(s[..at]) && IsAtom(s[at + 1..dot]) && IsAtom(s[dot + 1..])
    ensures IsValidEmail(s)
  {
    forall i | 0 <= i < |s| ensures !Text.IsJsWhitespace(s[i]) {
      if i < at {
        assert s[i] == s[..at][i];
      } else if at < i < dot {
        assert s[i] == s[at + 1..dot][i - (at + 1)];
      } else if dot < i {
        assert s[i] == s[dot + 1..][i - (dot + 1)];
      }
    }
    assert '@' in s[..at + 1];
    var first := Text.IndexOf(s, '@');
    assert first == at;
    var domain := s[at + 1..];
    forall j | 0 <= j < |domain| ensures domain[j] != '@' {
      var i := at + 1 + j;
      if i < dot {
        assert domain[j] == s[at + 1..dot][j];
      } else if dot < i {
        assert domain[j] == s[dot + 1..][i - (dot + 1)];
      }
    }
    assert domain[dot - (at + 1)] == '.';
    assert HasInnerDot(domain);
  }

  /** The shortest well-formed address. */
  lemma AcceptsShortAddress()
    ensures IsValidEmail("a@b.c")
  {
    assert Text.IndexOf("a@b.c", '@') == 1;
    assert "a@b.c"[2..] == "b.c";
    assert "b.c"[1] == '.';
  }

  /** A domain without a dot is refused. */
  lemma RejectsDomainWithoutDot()
    ensures !IsValidEmail("a@bc")
  {
    assert Text.IndexOf("a@bc", '@') == 1;
    assert "a@bc"[2..] == "bc";
  }

  /** A dot that ends the domain does not count. */
  lemma RejectsTrailingDot()
    ensures !IsValidEmail("a@b.")
  {
    assert Text.IndexOf("a@b.", '@') == 1;
    assert "a@b."[2..] == "b.";
  }

  /** The local part must not be empty. */
  lemma RejectsEmptyLocalPart()
    ensures !IsValidEmail("@b.c")
  {
    assert Text.IndexOf("@b.c", '@') == 0;
  }

  /** A second `@` is refused. */
  lemma RejectsSecondAt()
    ensures !IsValidEmail("a@b@c.d")
  {
    assert Text.IndexOf("a@b@c.d", '@') == 1;
    assert "a@b@c.d"[2..][1] == '@';
  }

  /** Whitespace anywhere is refused. */
  lemma RejectsSpace()
    ensures !IsValidEmail("a b@c.d")
  {
    assert Text.IsJsWhitespace("a b@c.d"[1]);
  }
}
