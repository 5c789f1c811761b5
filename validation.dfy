/**
 * Input sanitising and the three text validators of the application: the "why" document,
 * a replacement activity and a panic precursor event.
 *
 * `sanitizeString` makes one global pass per pattern, in order, then trims:
 *   - script blocks `/<script\b[^<]*(?:(?!<\/script>)<[^<]*)*<\/script>/gi`,
 *   - the scheme `/javascript:/gi`,
 *   - inline handlers `/on\w+\s*=/gi`.
 * None of the three patterns looks behind its match, so a global pass is a left-to-right
 * scan that drops each match and resumes after it. Each validator then applies a string
 * schema (length bounds, then a case-insensitive blacklist) to the sanitised text and
 * reports the first issue.
 */
module Validation {
  import opened Wrappers
  import opened JsText
  import opened JsValue

  /** `\w` without the `u` flag. */
  predicate IsWordChar(c: char) {
    'a' <= c <= 'z' || 'A' <= c <= 'Z' || '0' <= c <= '9' || c == '_'
  }

  /** `s` starts with `p`, ignoring the case of ASCII letters (`p` is lower-case). */
  predicate StartsWithCi(s: string, p: string) {
    |p| <= |s| && Lower(s[..|p|]) == p
  }

  /** The length of the longest prefix of `s` whose characters satisfy `IsWordChar`. */
  function WordRun(s: string): (n: nat)
    ensures n <= |s| && (forall k :: 0 <= k < n ==> IsWordChar(s[k])) && (n < |s| ==> !IsWordChar(s[n]))
    decreases |s|
  {
    if s != [] && IsWordChar(s[0]) then 1 + WordRun(s[1..]) else 0
  }

  /** The length of the longest prefix of `s` made of whitespace. */
  function SpaceRun(s: string): (n: nat)
    ensures n <= |s| && (forall k :: 0 <= k < n ==> IsWhitespace(s[k])) && (n < |s| ==> !IsWhitespace(s[n]))
    decreases |s|
  {
    if s != [] && IsWhitespace(s[0]) then 1 + SpaceRun(s[1..]) else 0
  }

  /** The position of the first `</script>` (any case) in `s` at or after `from`. */
  function ScriptEnd(s: string, from: nat): (r: Option<nat>)
    ensures r.Some? ==> from <= r.value && r.value + 9 <= |s| && StartsWithCi(s[r.value..], "</script>")
    ensures r.Some? ==> forall k :: from <= k < r.value ==> !StartsWithCi(s[k..], "</script>")
    ensures r.None? ==> forall k :: from <= k <= |s| ==> !StartsWithCi(s[k..], "</script>")
    decreases |s| - from
  {
    if from > |s| then None
    else if StartsWithCi(s[from..], "</script>") then Some(from)
    else if from == |s| then None
    else ScriptEnd(s, from + 1)
  }

  datatype Pattern = ScriptBlock | JavascriptScheme | EventHandler

  /** The length of the match of `p` at the start of `s`, `None` if it does not match there.
      - A script block is `<script` (any case) not followed by a word character, up to and
        including the first `</script>` after it: `[^<]*` and the guarded group can pass any
        `<` except one that opens `</script>`, so that is where the match must end.
      - An inline handler is `on`, a maximal run of word characters (at least one), maximal
        whitespace, then `=`; shorter runs leave a word character or a space before the `=`
        position, so no backtracking can succeed. */
  function MatchAt(p: Pattern, s: string): (r: Option<nat>)
    ensures r.Some? ==> 0 < r.value <= |s|
  {
    match p
    case ScriptBlock =>
      if StartsWithCi(s, "<script") && (|s| == 7 || !IsWordChar(s[7])) then
        match ScriptEnd(s, 7)
        case Some(e) => Some(e + 9)
        case None => None
      else None
    case JavascriptScheme =>
      if StartsWithCi(s, "javascript:") then Some(11) else None
    case EventHandler =>
      if StartsWithCi(s, "on") then
        var w := WordRun(s[2..]);
        var sp := SpaceRun(s[2 + w..]);
        if w > 0 && 2 + w + sp < |s| && s[2 + w + sp] == '=' then Some(2 + w + sp + 1) else None
      else None
  }

  /** `s.replace(p, '')` for the global pattern `p`. */
  function RemoveAll(p: Pattern, s: string): (r: string)
    ensures |r| <= |s|
    decreases |s|
  {
    if s == [] then []
    else
      match MatchAt(p, s)
      case Some(n) => RemoveAll(p, s[n..])
      case None => [s[0]] + RemoveAll(p, s[1..])
  }

  /** `p` matches nowhere in `s`. */
  predicate NoMatch(p: Pattern, s: string) {
    forall k :: 0 <= k < |s| ==> MatchAt(p, s[k..]).None?
  }

  /** A pass over text where the pattern matches nowhere leaves it unchanged. */
  lemma {:induction false} RemoveAllNoMatch(p: Pattern, s: string)
    requires NoMatch(p, s)
    ensures RemoveAll(p, s) == s
    decreases |s|
  {
    if s != [] {
      assert MatchAt(p, s[0..]).None?;
      assert s[0..] == s;
      assert NoMatch(p, s[1..]) by {
        forall k | 0 <= k < |s[1..]|
          ensures MatchAt(p, s[1..][k..]).None?
        {
          assert s[1..][k..] == s[k + 1..];
        }
      }
      RemoveAllNoMatch(p, s[1..]);
    }
  }

  /** A pass only deletes: its result is a subsequence of its input. */
  predicate IsSubsequence(a: string, b: string)
    decreases |b|
  {
    a == [] || (b != [] && ((a[0] == b[0] && IsSubsequence(a[1..], b[1..])) || IsSubsequence(a, b[1..])))
  }

  lemma {:induction false} SubsequenceDrop(a: string, b: string, n: nat)
    requires n <= |b| && IsSubsequence(a, b[n..])
    ensures IsSubsequence(a, b)
    decreases n
  {
    if n > 0 {
      assert b[n..] == b[1..][n - 1..];
      SubsequenceDrop(a, b[1..], n - 1);
    }
  }

  lemma {:induction false} RemoveAllSubsequence(p: Pattern, s: string)
    ensures IsSubsequence(RemoveAll(p, s), s)
    decreases |s|
  {
    if s != [] {
      match MatchAt(p, s)
      case Some(n) =>
        RemoveAllSubsequence(p, s[n..]);
        SubsequenceDrop(RemoveAll(p, s), s, n);
      case None =>
        RemoveAllSubsequence(p, s[1..]);
        var r := RemoveAll(p, s);
        assert r[0] == s[0] && r[1..] == RemoveAll(p, s[1..]);
    }
  }

  /** `sanitizeString(input)`: `''` for a non-string, otherwise the three passes and a trim. */
  function SanitizeString(input: Value): string {
    match input
    case Str(s) =>
      Trim(RemoveAll(EventHandler, RemoveAll(JavascriptScheme, RemoveAll(ScriptBlock, s))))
    case _ => ""
  }

  function Sanitize(s: string): string {
    SanitizeString(Str(s))
  }

  /** The three passes leave text where no pattern matches unchanged. */
  lemma PassesNoMatch(s: string)
    requires NoMatch(ScriptBlock, s) && NoMatch(JavascriptScheme, s) && NoMatch(EventHandler, s)
    ensures RemoveAll(EventHandler, RemoveAll(JavascriptScheme, RemoveAll(ScriptBlock, s))) == s
  {
    RemoveAllNoMatch(ScriptBlock, s);
    RemoveAllNoMatch(JavascriptScheme, s);
    RemoveAllNoMatch(EventHandler, s);
  }

  /** Text with none of the three patterns and no surrounding whitespace passes unchanged. */
  lemma SanitizeCleanText(s: string)
    requires NoMatch(ScriptBlock, s) && NoMatch(JavascriptScheme, s) && NoMatch(EventHandler, s)
    requires Trim(s) == s
    ensures Sanitize(s) == s
  {
    PassesNoMatch(s);
  }

  /** Sanitising never lengthens the text, and its result carries no outer whitespace. */
  lemma SanitizeShrinks(s: string)
    ensures |Sanitize(s)| <= |s|
    ensures Trim(Sanitize(s)) == Sanitize(s)
  {
    var r := RemoveAll(EventHandler, RemoveAll(JavascriptScheme, RemoveAll(ScriptBlock, s)));
    TrimIdempotent(r);
  }

  lemma NotStartsWithCi(s: string, p: string, i: nat)
    requires i < |p| && i < |s| && LowerChar(s[i]) != p[i]
    ensures !StartsWithCi(s, p)
  {
    if |p| <= |s| {
      assert Lower(s[..|p|])[i] == LowerChar(s[i]);
    }
  }

  /** Where the pattern does not match at the head, the pass keeps the first character. */
  lemma RemoveAllKeep(p: Pattern, s: string)
    requires s != [] && MatchAt(p, s).None?
    ensures RemoveAll(p, s) == [s[0]] + RemoveAll(p, s[1..])
  {
  }

  lemma SchemeTail()
    ensures RemoveAll(JavascriptScheme, "script:") == "script:"
  {
    assert NoMatch(JavascriptScheme, "script:");
    RemoveAllNoMatch(JavascriptScheme, "script:");
  }

  lemma SchemeDropped()
    ensures RemoveAll(JavascriptScheme, "javascript:script:") == "script:"
  {
    var s := "javascript:script:";
    assert s[..11] == "javascript:";
    assert MatchAt(JavascriptScheme, s) == Some(11);
    assert s[11..] == "script:";
    SchemeTail();
  }

  /** Characters that cannot open the scheme are kept by its pass. */
  lemma {:induction false} SchemeKeepPrefix(p: string, s: string)
    requires forall k :: 0 <= k < |p| ==> LowerChar(p[k]) != 'j'
    ensures RemoveAll(JavascriptScheme, p + s) == p + RemoveAll(JavascriptScheme, s)
    decreases |p|
  {
    if p == [] {
      assert p + s == s;
    } else {
      var x := p + s;
      assert x[0] == p[0] && x[1..] == p[1..] + s;
      NotStartsWithCi(x, "javascript:", 0);
      RemoveAllKeep(JavascriptScheme, x);
      SchemeKeepPrefix(p[1..], s);
      assert p == [p[0]] + p[1..];
    }
  }

  lemma SchemeReassembled(p: string, x: string)
    requires p == "ava" && x == "javascript:script:"
    ensures RemoveAll(JavascriptScheme, p + x) == p + "script:"
  {
    assert forall k :: 0 <= k < |p| ==> LowerChar(p[k]) != 'j' by {
      assert p[0] == 'a' && p[1] == 'v' && p[2] == 'a';
    }
    SchemeKeepPrefix(p, x);
    SchemeDropped();
    assert RemoveAll(JavascriptScheme, x) == "script:";
  }

  /** One pass per pattern is not a fixpoint: dropping a scheme can assemble another one, so
      a sanitised text may still hold `javascript:` (which the validators then refuse). */
  lemma SinglePassLeavesScheme(p: string, x: string)
    requires p == "ava" && x == "javascript:script:"
    ensures RemoveAll(JavascriptScheme, "j" + p + x) == "javascript:"
  {
    var s := "j" + p + x;
    assert s[0] == 'j' && s[4] == 'j' && s[1..] == p + x;
    NotStartsWithCi(s, "javascript:", 4);
    assert MatchAt(JavascriptScheme, s).None?;
    RemoveAllKeep(JavascriptScheme, s);
    SchemeReassembled(p, x);
    SchemeSpelt(s[0], p, "script:");
  }

  lemma SchemeSpelt(j: char, p: string, q: string)
    requires j == 'j' && p == "ava" && q == "script:"
    ensures [j] + (p + q) == "javascript:"
  {
  }

  /** A string schema: inclusive length bounds, then a case-insensitive blacklist, each with
      its message. */
  datatype StringSchema = StringSchema(
    min: nat, minMessage: string,
    max: nat, maxMessage: string,
    blacklist: seq<string>, blacklistMessage: string)

  /** The text contains one of the patterns, ignoring ASCII case. */
  predicate Blacklisted(s: string, patterns: seq<string>) {
    exists k :: 0 <= k < |patterns| && Contains(Lower(s), patterns[k])
  }

  /** `schema.parse(s)`: the message of the first issue, `None` when `s` is accepted. The
      refinement runs even after a failed length check, so the length issue comes first. */
  function FirstIssue(schema: StringSchema, s: string): (r: Option<string>)
    ensures r.None? <==> schema.min <= |s| <= schema.max && !Blacklisted(s, schema.blacklist)
  {
    if |s| < schema.min then Some(schema.minMessage)
    else if |s| > schema.max then Some(schema.maxMessage)
    else if Blacklisted(s, schema.blacklist) then Some(schema.blacklistMessage)
    else None
  }

  /** The record the validators return. */
  datatype ValidationResult = ValidationResult(valid: bool, error: Option<string>, sanitized: Option<string>)

  const WHY_SCHEMA := StringSchema(
    10, "Why document must be at least 10 characters",
    2000, "Why document must be less than 2000 characters",
    ["<script", "javascript:", "onerror=", "onclick=", "onload="],
    "Invalid characters detected. Please remove any script tags or event handlers.")

  const ACTIVITY_SCHEMA := StringSchema(
    2, "Activity name must be at least 2 characters",
    100, "Activity name must be less than 100 characters",
    ["<script", "javascript:", "onerror="],
    "Invalid characters detected")

  const PRECURSOR_SCHEMA := StringSchema(
    0, "",
    500, "Precursor event must be less than 500 characters",
    ["<script", "javascript:", "onerror="],
    "Invalid characters detected")

  /** Sanitise, then parse with the schema. */
  function ValidateWith(schema: StringSchema, input: string): (r: ValidationResult)
    ensures var s := Sanitize(input);
            (r.valid <==> schema.min <= |s| <= schema.max && !Blacklisted(s, schema.blacklist))
            && (r.valid ==> r.sanitized == Some(s) && r.error.None?)
            && (!r.valid ==> r.sanitized.None? && r.error == FirstIssue(schema, s))
  {
    var s := Sanitize(input);
    match FirstIssue(schema, s)
    case None => ValidationResult(true, None, Some(s))
    case Some(message) => ValidationResult(false, Some(message), None)
  }

  /** `validateWhyDocument(input)`. */
  function ValidateWhyDocument(input: string): ValidationResult {
    ValidateWith(WHY_SCHEMA, input)
  }

  /** `validateReplacementActivity(input)`. */
  function ValidateReplacementActivity(input: string): ValidationResult {
    ValidateWith(ACTIVITY_SCHEMA, input)
  }

  /** `validatePrecursorEvent(input)`: blank input is valid and sanitises to `''`. */
  function ValidatePrecursorEvent(input: string): ValidationResult {
    if input == "" || |Trim(input)| == 0 then ValidationResult(true, None, Some(""))
    else ValidateWith(PRECURSOR_SCHEMA, input)
  }

  /** The why document is valid exactly when its sanitised text has 10 to 2000 characters
      (both inclusive) and none of the five patterns; the error is the first failed check. */
  lemma WhyDocumentRule(input: string)
    ensures var s := Sanitize(input);
            var r := ValidateWhyDocument(input);
            (r.valid <==> 10 <= |s| <= 2000 && !Blacklisted(s, WHY_SCHEMA.blacklist))
            && (r.valid ==> r.sanitized == Some(s))
            && (|s| < 10 ==> r.error == Some("Why document must be at least 10 characters"))
            && (|s| > 2000 ==> r.error == Some("Why document must be less than 2000 characters"))
            && (10 <= |s| <= 2000 && Blacklisted(s, WHY_SCHEMA.blacklist) ==> r.error == Some(WHY_SCHEMA.blacklistMessage))
  {
  }

  /** A replacement activity is valid exactly when its sanitised text has 2 to 100
      characters and none of the three patterns. */
  lemma ActivityRule(input: string)
    ensures var s := Sanitize(input);
            var r := ValidateReplacementActivity(input);
            (r.valid <==> 2 <= |s| <= 100 && !Blacklisted(s, ACTIVITY_SCHEMA.blacklist))
            && (r.valid ==> r.sanitized == Some(s))
            && (!r.valid ==> r.sanitized.None? && r.error.Some?)
  {
  }

  /** A precursor event is valid when blank (sanitised to `''`), and otherwise exactly when
      its sanitised text has at most 500 characters and none of the three patterns. */
  lemma PrecursorRule(input: string)
    ensures IsBlank(input) ==> ValidatePrecursorEvent(input) == ValidationResult(true, None, Some(""))
    ensures !IsBlank(input) ==>
              var s := Sanitize(input);
              var r := ValidatePrecursorEvent(input);
              (r.valid <==> |s| <= 500 && !Blacklisted(s, PRECURSOR_SCHEMA.blacklist))
              && (r.valid ==> r.sanitized == Some(s))
  {
    if !IsBlank(input) {
      assert ValidatePrecursorEvent(input) == ValidateWith(PRECURSOR_SCHEMA, input);
      assert PRECURSOR_SCHEMA.min == 0 && PRECURSOR_SCHEMA.max == 500;
    }
  }

  /** Every valid result's text is free of the blacklisted patterns, even where the single
      sanitising pass left one behind. */
  lemma ValidTextNotBlacklisted(schema: StringSchema, input: string)
    requires ValidateWith(schema, input).valid
    ensures forall k :: 0 <= k < |schema.blacklist| ==>
              !Contains(Lower(ValidateWith(schema, input).sanitized.value), schema.blacklist[k])
  {
  }

  /** `validation.error || fallback`. */
  function ErrorText(v: ValidationResult, fallback: string): string {
    if v.error.Some? && v.error.value != "" then v.error.value else fallback
  }

  /** `validation.sanitized || text`. */
  function SanitizedOr(v: ValidationResult, text: string): string {
    if v.sanitized.Some? && v.sanitized.value != "" then v.sanitized.value else text
  }
}
