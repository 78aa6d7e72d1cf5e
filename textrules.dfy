/** String rules shared by the registration and recovery forms and the user
    store: JavaScript whitespace, `trim()`-emptiness, upper-casing, and the
    two patterns `/^[^\s@]+@[^\s@]+\.[^\s@]+$/` and `/^ZS\d{8}$/i`. */
module TextRules {

  /** The characters JavaScript's `\s` and `String.prototype.trim` treat as
      white space or line terminators. */
  predicate IsSpace(c: char)
  {
    || c == '\t' || c == '\n' || c == '\U{000B}' || c == '\U{000C}' || c == '\r'
    || c == ' ' || c == '\U{00A0}' || c == '\U{1680}'
    || ('\U{2000}' <= c <= '\U{200A}')
    || c == '\U{2028}' || c == '\U{2029}' || c == '\U{202F}' || c == '\U{205F}'
    || c == '\U{3000}' || c == '\U{FEFF}'
  }

  /** `!s.trim()`: nothing but white space is left. The empty text is
      blank, and a text with a character outside white space is not. */
  predicate IsBlank(s: string)
    ensures s == "" ==> IsBlank(s)
    ensures (exists i :: 0 <= i < |s| && !IsSpace(s[i])) ==> !IsBlank(s)
  {
    forall i :: 0 <= i < |s| ==> IsSpace(s[i])
  }

  /** Upper-casing, restricted to the ASCII letters. */
  function UpperChar(c: char): (u: char)
    ensures 'A' <= u <= 'Z' <==> ('A' <= c <= 'Z' || 'a' <= c <= 'z')
    ensures 'a' <= c <= 'z' ==> u as int == c as int - ('a' as int - 'A' as int)
    ensures !('a' <= c <= 'z') ==> u == c
  {
    if 'a' <= c <= 'z' then (c as int - 32) as char else c
  }

  function Upper(s: string): (u: string)
  {
    seq(|s|, i requires 0 <= i < |s| => UpperChar(s[i]))
  }

  /** `a.toUpperCase() === b.toUpperCase()`. */
  predicate SameIgnoringCase(a: string, b: string)
  {
    Upper(a) == Upper(b)
  }

  /** Two strings are equal ignoring case exactly when they have the same
      length and agree letter by letter up to case. */
  lemma SameIgnoringCaseIff(a: string, b: string)
    ensures SameIgnoringCase(a, b) <==>
      |a| == |b| && forall i :: 0 <= i < |a| ==> UpperChar(a[i]) == UpperChar(b[i])
  {
    if |a| == |b| && forall i :: 0 <= i < |a| ==> UpperChar(a[i]) == UpperChar(b[i]) {
      assert Upper(a) == Upper(b);
    }
    if SameIgnoringCase(a, b) {
      assert |Upper(a)| == |a| && |Upper(b)| == |b|;
      forall i | 0 <= i < |a|
        ensures UpperChar(a[i]) == UpperChar(b[i])
      {
        assert Upper(a)[i] == Upper(b)[i];
      }
    }
  }

  predicate IsDigit(c: char)
  {
    '0' <= c <= '9'
  }

  /** `/^ZS\d{8}$/i`: `Z`, `S` in either case, then exactly eight decimal
      digits. */
  predicate IsMatricula(s: string)
    ensures IsMatricula(s) ==> forall i :: 0 <= i < |s| ==> !IsSpace(s[i]) && s[i] != '@'
  {
    && |s| == 10
    && (s[0] == 'Z' || s[0] == 'z')
    && (s[1] == 'S' || s[1] == 's')
    && forall i :: 2 <= i < 10 ==> IsDigit(s[i])
  }

  /** A valid student ID upper-cases to `ZS` and its digits, and a string
      that is the same ignoring case is a valid student ID too. */
  lemma MatriculaUpToCase(s: string, t: string)
    requires IsMatricula(s) && SameIgnoringCase(s, t)
    ensures Upper(s)[..2] == "ZS"
    ensures IsMatricula(t)
  {
    SameIgnoringCaseIff(s, t);
    assert Upper(s)[0] == 'Z' && Upper(s)[1] == 'S';
    forall i | 2 <= i < 10
      ensures IsDigit(t[i])
    {
      assert UpperChar(s[i]) == UpperChar(t[i]);
    }
  }

  predicate NoSpaceOrAt(s: string)
  {
    forall i :: 0 <= i < |s| ==> !IsSpace(s[i]) && s[i] != '@'
  }

  /** `/^[^\s@]+@[^\s@]+\.[^\s@]+$/`: a non-empty local part, one `@`, and a
      domain with a `.` that has text on both sides, all without white
      space. */
  predicate IsEmail(s: string)
    ensures IsEmail(s) ==> 5 <= |s| && '@' in s && '.' in s
  {
    exists at :: 0 < at < |s| && s[at] == '@' && EmailSplit(s, at)
  }

  predicate EmailSplit(s: string, at: nat)
    requires at < |s|
  {
    && NoSpaceOrAt(s[..at])
    && NoSpaceOrAt(s[at + 1..])
    && exists dot :: at + 1 < dot < |s| - 1 && s[dot] == '.'
  }

  /** An accepted e-mail address holds exactly one `@`, and no white space. */
  lemma EmailHasOneAt(s: string, i: nat, j: nat)
    requires IsEmail(s)
    requires i < |s| && j < |s| && s[i] == '@' && s[j] == '@'
    ensures i == j
    ensures forall k :: 0 <= k < |s| ==> !IsSpace(s[k])
  {
    var at :| 0 < at < |s| && s[at] == '@' && EmailSplit(s, at);
    forall k | 0 <= k < |s|
      ensures !IsSpace(s[k])
    {
      if k < at {
        assert s[..at][k] == s[k];
      } else if k > at {
        assert s[at + 1..][k - at - 1] == s[k];
      }
    }
  }

  /** An ordinary address passes the pattern. */
  lemma EmailExampleAccepted()
    ensures IsEmail("jeshua@example.com")
  {
    var s := "jeshua@example.com";
    assert s[6] == '@' && s[14] == '.';
    assert EmailSplit(s, 6);
  }

  /** A domain without a dot, and an empty local part, fail the pattern. */
  lemma EmailExamplesRejected()
    ensures !IsEmail("a@b")
    ensures !IsEmail("@example.com")
  {
    var t := "a@b";
    forall at | 0 < at < |t| && t[at] == '@'
      ensures !EmailSplit(t, at)
    {
    }
    var u := "@example.com";
    forall at | 0 < at < |u|
      ensures u[at] != '@'
    {
    }
  }

  /** A valid student ID is never an e-mail address (it has no `@`). */
  lemma MatriculaIsNotEmail(s: string)
    requires IsMatricula(s)
    ensures !IsEmail(s)
  {
    forall at | 0 < at < |s|
      ensures s[at] != '@'
    {
      if at >= 2 {
        assert IsDigit(s[at]);
      }
    }
  }
}
