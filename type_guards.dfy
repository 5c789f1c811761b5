/**
 * Runtime type guards on untyped values: a string with visible content, and the e-mail
 * shape check `/^[^\s@]+@[^\s@]+\.[^\s@]+$/`.
 */
module TypeGuards {
  import opened JsText
  import opened JsValue

  /** `isNonEmptyString(value)`: a string whose `trim()` is not empty. */
  predicate IsNonEmptyString(value: Value) {
    value.Str? && |Trim(value.s)| > 0
  }

  /** A non-empty string is exactly a string with a character that is not whitespace. */
  lemma NonEmptyStringIff(value: Value)
    ensures IsNonEmptyString(value) <==>
              value.Str? && exists i :: 0 <= i < |value.s| && !IsWhitespace(value.s[i])
  {
    if value.Str? {
      BlankIffAllWhitespace(value.s);
    }
  }

  /** A character of the class `[^\s@]`. */
  predicate EmailChar(c: char) {
    !IsWhitespace(c) && c != '@'
  }

  predicate AllEmailChars(s: string) {
    forall k :: 0 <= k < |s| ==> EmailChar(s[k])
  }

  /** The matcher: the text before the first `@` is a non-empty run of `[^\s@]`, and what
      follows is a run of `[^\s@]` with a `.` neither first nor last. */
  predicate EmailText(s: string) {
    var local := Before(s, '@');
    0 < |local| < |s|
    && var domain := s[|local| + 1..];
       AllEmailChars(local) && AllEmailChars(domain) && |domain| >= 3 && '.' in domain[1..|domain| - 1]
  }

  /** `isValidEmailFormat(value)`. */
  predicate IsValidEmailFormat(value: Value) {
    value.Str? && EmailText(value.s)
  }

  /** The regular expression read literally: `local @ label . tld`, each part a non-empty run
      of `[^\s@]`. */
  predicate RegexMatches(s: string) {
    exists i, j :: 0 < i && i + 1 < j && j + 1 < |s| && s[i] == '@' && s[j] == '.'
                   && AllEmailChars(s[..i]) && AllEmailChars(s[i + 1..j]) && AllEmailChars(s[j + 1..])
  }

  lemma EmailTextMatches(s: string)
    requires EmailText(s)
    ensures RegexMatches(s)
  {
    var i := |Before(s, '@')|;
    var domain := s[i + 1..];
    var mid := domain[1..|domain| - 1];
    var p :| 0 <= p < |mid| && mid[p] == '.';
    var j := i + 2 + p;
    assert s[j] == '.';
    assert s[..i] == Before(s, '@');
    assert s[i + 1..j] == domain[..p + 1];
    assert s[j + 1..] == domain[p + 2..];
    assert AllEmailChars(s[i + 1..j]);
    assert AllEmailChars(s[j + 1..]);
  }

  lemma AllEmailCharsJoin(a: string, c: char, b: string)
    requires AllEmailChars(a) && EmailChar(c) && AllEmailChars(b)
    ensures AllEmailChars(a + [c] + b)
  {
    var x := a + [c] + b;
    forall k | 0 <= k < |x|
      ensures EmailChar(x[k])
    {
      if k < |a| {
        assert x[k] == a[k];
      } else if k > |a| {
        assert x[k] == b[k - |a| - 1];
      }
    }
  }

  /** With no `@` before position `i` and one at `i`, the text before the first `@` is
      `s[..i]`. */
  lemma BeforeFirstAt(s: string, i: nat)
    requires i < |s| && s[i] == '@' && '@' !in s[..i]
    ensures Before(s, '@') == s[..i]
  {
    assert s == s[..i] + s[i..];
    BeforePrefix(s[..i], s[i..], '@');
    BeforeAll(s[..i], '@');
  }

  lemma AllEmailCharsNoAt(s: string)
    requires AllEmailChars(s)
    ensures '@' !in s
  {
  }

  /** The pieces of a literal match, as the matcher sees them. */
  lemma MatchPieces(s: string, i: nat, j: nat)
    requires 0 < i && i + 1 < j && j + 1 < |s| && s[i] == '@' && s[j] == '.'
    requires AllEmailChars(s[..i]) && AllEmailChars(s[i + 1..j]) && AllEmailChars(s[j + 1..])
    ensures Before(s, '@') == s[..i]
    ensures AllEmailChars(s[i + 1..])
    ensures '.' in s[i + 1..][1..|s[i + 1..]| - 1]
    ensures EmailText(s)
  {
    AllEmailCharsNoAt(s[..i]);
    BeforeFirstAt(s, i);
    var domain := s[i + 1..];
    assert domain == s[i + 1..j] + [s[j]] + s[j + 1..];
    AllEmailCharsJoin(s[i + 1..j], s[j], s[j + 1..]);
    assert domain[1..|domain| - 1][j - i - 2] == '.';
    assert |Before(s, '@')| == i;
  }

  lemma RegexMatchesEmailText(s: string)
    requires RegexMatches(s)
    ensures EmailText(s)
  {
    var i, j :| 0 < i && i + 1 < j && j + 1 < |s| && s[i] == '@' && s[j] == '.'
                && AllEmailChars(s[..i]) && AllEmailChars(s[i + 1..j]) && AllEmailChars(s[j + 1..]);
    MatchPieces(s, i, j);
  }

  /** The matcher accepts exactly the strings the regular expression matches. */
  lemma EmailTextIffRegex(s: string)
    ensures EmailText(s) <==> RegexMatches(s)
  {
    if EmailText(s) {
      EmailTextMatches(s);
    }
    if RegexMatches(s) {
      RegexMatchesEmailText(s);
    }
  }

  lemma OnlyAt(a: string, b: string)
    requires '@' !in a && '@' !in b
    ensures forall k :: 0 <= k < |a + "@" + b| && (a + "@" + b)[k] == '@' ==> k == |a|
  {
    var x := a + "@" + b;
    assert forall k :: 0 <= k < |a| ==> x[k] == a[k];
    assert forall k :: |a| < k < |x| ==> x[k] == b[k - |a| - 1];
  }

  /** An accepted address holds exactly one `@`. */
  lemma EmailHasOneAt(s: string)
    requires EmailText(s)
    ensures exists i :: 0 <= i < |s| && s[i] == '@' && forall k :: 0 <= k < |s| && s[k] == '@' ==> k == i
  {
    var local := Before(s, '@');
    var i := |local|;
    var domain := s[i + 1..];
    AllEmailCharsNoAt(domain);
    assert s == local + "@" + domain;
    OnlyAt(local, domain);
    assert s[i] == '@';
  }

  /** Neither guard accepts a value that is not a string. */
  lemma GuardsRejectNonStrings(value: Value)
    requires !value.Str?
    ensures !IsNonEmptyString(value) && !IsValidEmailFormat(value)
  {
  }
}
