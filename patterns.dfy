/** The regular expressions of the client validators, written out as
    predicates over strings:
      name    ^[a-zA-Z\s'-]+$                               (contactService.ts)
      email   ^[^\s@]+@[^\s@]+\.[^\s@]+$                    (contactService.ts, DomainConfigForm.tsx)
      phone   replace(/\D/g, '') then a length test        (contactService.ts)
      domain  ^([a-z0-9]+(-[a-z0-9]+)*\.)+[a-z]{2,}$        (DomainConfigForm.tsx) */
module Patterns {
  import opened Wrappers
  import opened Text

  // ----- name -----

  /** A character of the class `[a-zA-Z\s'-]`. */
  predicate NameChar(c: char)
  {
    IsAsciiLetter(c) || IsSpace(c) || c == '\'' || c == '-'
  }

  /** `/^[a-zA-Z\s'-]+$/.test(s)`. */
  predicate NamePattern(s: string)
  {
    |s| > 0 && forall k :: 0 <= k < |s| ==> NameChar(s[k])
  }

  // ----- email -----

  /** A character of the class `[^\s@]`. */
  predicate EmailChar(c: char)
  {
    !IsSpace(c) && c != '@'
  }

  predicate AllEmailChars(s: string)
  {
    forall k :: 0 <= k < |s| ==> EmailChar(s[k])
  }

  /** The email regular expression as the regex engine reads it: three non-empty
      runs of `[^\s@]`, the first two separated by `@`, the last two by some `.`. */
  ghost predicate EmailRegex(s: string)
  {
    exists i, j :: 0 < i && i + 1 < j && j + 1 < |s| && s[i] == '@' && s[j] == '.'
                && AllEmailChars(s[..i]) && AllEmailChars(s[i + 1..j]) && AllEmailChars(s[j + 1..])
  }

  /** The same test, computed: split at the first `@`; the local part is non-empty,
      neither side has white space or another `@`, and the domain side has a `.`
      that is neither its first nor its last character. */
  predicate IsEmail(s: string)
  {
    match IndexOf(s, '@')
    case None => false
    case Some(i) =>
      && 0 < i
      && AllEmailChars(s[..i])
      && AllEmailChars(s[i + 1..])
      && i + 2 <= |s| - 1
      && '.' in s[i + 2..|s| - 1]
  }

  lemma AllEmailCharsSlice(t: string, a: nat, b: nat)
    requires a <= b <= |t| && AllEmailChars(t)
    ensures AllEmailChars(t[a..b])
  {
    assert forall m :: 0 <= m < b - a ==> t[a..b][m] == t[a + m];
  }

  lemma AllEmailCharsJoin(x: string, c: char, y: string)
    requires AllEmailChars(x) && EmailChar(c) && AllEmailChars(y)
    ensures AllEmailChars(x + [c] + y)
  {
  }

  lemma EmailSound(s: string)
    requires IsEmail(s)
    ensures EmailRegex(s)
  {
    var i := IndexOf(s, '@').value;
    var d := s[i + 1..];
    var mid := s[i + 2..|s| - 1];
    var k :| 0 <= k < |mid| && mid[k] == '.';
    var j := i + 2 + k;
    assert s[j] == '.';
    AllEmailCharsSlice(d, 0, j - i - 1);
    assert d[0..j - i - 1] == s[i + 1..j];
    AllEmailCharsSlice(d, j - i, |d|);
    assert d[j - i..|d|] == s[j + 1..];
  }

  lemma EmailComplete(s: string, i: nat, j: nat)
    requires 0 < i && i + 1 < j && j + 1 < |s| && s[i] == '@' && s[j] == '.'
    requires AllEmailChars(s[..i]) && AllEmailChars(s[i + 1..j]) && AllEmailChars(s[j + 1..])
    ensures IsEmail(s)
  {
    var r := IndexOf(s, '@');
    assert r.Some? && r.value == i by {
      assert '@' in s;
      assert '@' !in s[..i];
    }
    AllEmailCharsJoin(s[i + 1..j], '.', s[j + 1..]);
    assert s[i + 1..] == s[i + 1..j] + ['.'] + s[j + 1..];
    assert s[i + 2..|s| - 1][j - i - 2] == '.';
  }

  /** The computed test accepts exactly the strings the regular expression matches. */
  lemma EmailIff(s: string)
    ensures IsEmail(s) <==> EmailRegex(s)
  {
    if IsEmail(s) {
      EmailSound(s);
    }
    if EmailRegex(s) {
      var i, j :| 0 < i && i + 1 < j && j + 1 < |s| && s[i] == '@' && s[j] == '.'
                && AllEmailChars(s[..i]) && AllEmailChars(s[i + 1..j]) && AllEmailChars(s[j + 1..]);
      EmailComplete(s, i, j);
    }
  }

  // ----- phone -----

  /** `s.replace(/\D/g, '')`: the decimal digits of `s`, in order. */
  function DigitsOf(s: string): (r: string)
    ensures forall k :: 0 <= k < |r| ==> IsDigit(r[k])
    ensures |r| <= |s|
    decreases |s|
  {
    if s == [] then []
    else if IsDigit(s[0]) then [s[0]] + DigitsOf(s[1..])
    else DigitsOf(s[1..])
  }

  /** Removing the non-digits keeps every digit: the digits of a concatenation are
      the digits of its parts. */
  lemma {:induction false} DigitsOfAppend(a: string, b: string)
    ensures DigitsOf(a + b) == DigitsOf(a) + DigitsOf(b)
    decreases |a|
  {
    if a != [] {
      assert (a + b)[1..] == a[1..] + b;
      DigitsOfAppend(a[1..], b);
    } else {
      assert a + b == b;
    }
  }

  // ----- domain -----

  /** A character of the class `[a-z0-9]`. */
  predicate LabelChar(c: char)
  {
    IsLowerLetter(c) || IsDigit(c)
  }

  /** `[a-z0-9]+(-[a-z0-9]+)*`: runs of `[a-z0-9]` joined by single hyphens, so it
      starts and ends with a letter or digit and has no two hyphens in a row. */
  predicate Label(s: string)
  {
    && s != []
    && LabelChar(s[0])
    && LabelChar(s[|s| - 1])
    && (forall k :: 0 <= k < |s| ==> LabelChar(s[k]) || s[k] == '-')
    && (forall k :: 0 <= k < |s| - 1 ==> s[k] == '-' ==> s[k + 1] != '-')
  }

  /** `[a-z]{2,}`. */
  predicate TopLevel(s: string)
  {
    |s| >= 2 && forall k :: 0 <= k < |s| ==> IsLowerLetter(s[k])
  }

  /** `^([a-z0-9]+(-[a-z0-9]+)*\.)+[a-z]{2,}$`: one or more labels, each followed by
      a `.`, then a top-level part. */
  predicate DomainName(s: string)
    decreases |s|
  {
    exists i | 0 <= i < |s| :: s[i] == '.' && Label(s[..i])
                             && (TopLevel(s[i + 1..]) || DomainName(s[i + 1..]))
  }

  /** A well-formed domain holds no white space and is not blank, so for it the
      form's "required" test and its trimmed value agree with the raw text. */
  lemma {:induction false} DomainNameNoSpace(s: string)
    requires DomainName(s)
    ensures s != [] && NoSpace(s)
    decreases |s|
  {
    var i :| 0 <= i < |s| && s[i] == '.' && Label(s[..i])
           && (TopLevel(s[i + 1..]) || DomainName(s[i + 1..]));
    var rest := s[i + 1..];
    if !TopLevel(rest) {
      DomainNameNoSpace(rest);
    }
    forall k | 0 <= k < |s| ensures !IsSpace(s[k]) {
      if k < i {
        assert s[k] == s[..i][k];
      } else if k > i {
        assert s[k] == rest[k - i - 1];
      }
    }
  }
}
