/**
 * The retrieval-augmented chat chain of the backend: the keyword crisis gate that answers
 * before any retrieval, the prompt built from the chat history and the retrieved documents,
 * and the offline stub model that lists the sources it was shown.
 *
 * The vector store's search and the language model are parameters; Python strings are
 * sequences of code points, as Dafny's are.
 */
module RagChain {
  import opened Wrappers
  import opened JsText

  // ---------------------------------------------------------------- the crisis gate

  const CRISIS_KEYWORDS: seq<string> := [
    "suicide", "kill myself", "end my life", "self-harm", "hurt myself",
    "want to die", "cut myself", "overdose", "can't go on"
  ]

  /** `is_crisis(text)`: the lower-cased text contains one of the keywords. */
  predicate IsCrisis(text: string) {
    exists k :: 0 <= k < |CRISIS_KEYWORDS| && Contains(Lower(text), CRISIS_KEYWORDS[k])
  }

  const CRISIS_MESSAGE: string := CRISIS_DANGER + "911" + CRISIS_CANADA + "988" + CRISIS_REACH
  const CRISIS_DANGER :=
    "I\U{2019}m really sorry you\U{2019}re feeling this way. I can\U{2019}t help with self-harm or suicide plans, "
    + "but you deserve immediate support.\n\n"
    + "If you\U{2019}re in immediate danger: call emergency services ("
  const CRISIS_CANADA := " in Canada/US).\n" + "Canada: Call or text "
  const CRISIS_REACH :=
    " (Suicide Crisis Helpline).\n"
    + "If you can, reach out right now to a trusted person nearby.\n\n"
    + "If you want, tell me your country/city and I\U{2019}ll help you find the right crisis resource."

  /** The crisis reply names both the emergency number and the crisis line. */
  lemma CrisisMessageHotlines(m: string)
    requires m == CRISIS_MESSAGE
    ensures Contains(m, "911") && Contains(m, "988")
  {
    var p := CRISIS_DANGER + "911";
    ContainsEnd(CRISIS_DANGER, "911");
    ContainsGrow(p, CRISIS_CANADA, "911");
    ContainsGrow(p + CRISIS_CANADA, "988", "911");
    ContainsGrow(p + CRISIS_CANADA + "988", CRISIS_REACH, "911");
    ContainsEnd(p + CRISIS_CANADA, "988");
    ContainsGrow(p + CRISIS_CANADA + "988", CRISIS_REACH, "988");
  }

  lemma ContainsMiddle(a: string, x: string, b: string)
    ensures Contains(a + x + b, x)
  {
    assert (a + x + b)[|a|..] == x + b;
    ContainsAt(a + x + b, x, |a|);
  }

  lemma ContainsEnd(a: string, x: string)
    ensures Contains(a + x, x)
  {
    assert (a + x)[|a|..] == x;
    ContainsAt(a + x, x, |a|);
  }

  lemma ContainsGrow(p: string, q: string, x: string)
    requires Contains(p, x)
    ensures Contains(p + q, x)
  {
    ContainsIff(p, x);
    var j :| 0 <= j <= |p| && x <= p[j..];
    assert (p + q)[j..] == p[j..] + q;
    ContainsAt(p + q, x, j);
  }

  lemma AbsentChar(s: string, sub: string, c: char)
    requires c in sub && c !in s
    ensures !Contains(s, sub)
  {
    var i :| 0 <= i < |sub| && sub[i] == c;
    forall j | 0 <= j <= |s|
      ensures !(sub <= s[j..])
    {
      if j + i < |s| {
        assert s[j..][i] == s[j + i] != c;
      }
    }
    ContainsIff(s, sub);
  }

  /** The first sentence of the crisis-detection test is a crisis. */
  lemma KillMyselfIsCrisis(text: string)
    requires text == "I want to kill myself"
    ensures IsCrisis(text)
  {
    var t := Lower(text);
    assert t[10..21] == "kill myself";
    ContainsAt(t, CRISIS_KEYWORDS[1], 10);
  }

  /** The sentence of the short-circuit test is a crisis. */
  lemma EndMyLifeIsCrisis(text: string)
    requires text == "I want to end my life."
    ensures IsCrisis(text)
  {
    var t := Lower(text);
    assert t[10..21] == "end my life";
    ContainsAt(t, CRISIS_KEYWORDS[2], 10);
  }

  /** The second sentence of the crisis-detection test is not: each keyword holds a character
      the sentence lacks. */
  lemma ScrollingIsNotCrisis(text: string)
    requires text == "I feel tempted to scroll social media"
    ensures !IsCrisis(text)
  {
    var missing := "ukyw-v'";
    var order := ['u', 'k', 'y', '-', 'y', 'w', 'y', 'v', '\''];
    forall k | 0 <= k < |CRISIS_KEYWORDS|
      ensures !Contains(Lower(text), CRISIS_KEYWORDS[k])
    {
      var c := order[k];
      assert c in CRISIS_KEYWORDS[k] && c in missing;
      ScrollingLacks(text, c);
      AbsentChar(Lower(text), CRISIS_KEYWORDS[k], c);
    }
  }

  lemma ScrollingLacks(text: string, c: char)
    requires text == "I feel tempted to scroll social media"
    requires c in "ukyw-v'"
    ensures c !in Lower(text)
  {
    ScrollingAlphabet(text);
    assert c !in SCROLLING_LETTERS;
  }

  /** The letters of the lower-cased sentence. */
  const SCROLLING_LETTERS: set<char> := {'i', ' ', 'f', 'e', 'l', 't', 'm', 'p', 'd', 'o', 's', 'c', 'r', 'a'}

  lemma ScrollingAlphabet(text: string)
    requires text == "I feel tempted to scroll social media"
    ensures forall i :: 0 <= i < |text| ==> Lower(text)[i] in SCROLLING_LETTERS
  {
    forall i | 0 <= i < |text|
      ensures LowerChar(text[i]) in SCROLLING_LETTERS
    {
    }
  }

  /** A character is missing from the lower-cased text when it and its capital are missing
      from the text. */
  lemma LowerLacks(s: string, c: char)
    requires c !in s && !('a' <= c <= 'z' && (c as int - 32) as char in s)
    ensures c !in Lower(s)
  {
    forall i | 0 <= i < |s|
      ensures Lower(s)[i] != c
    {
      assert s[i] != c;
    }
  }

  // ---------------------------------------------------------------- configuration

  /** `RAGConfig`. */
  datatype RagConfig = RagConfig(dataDir: string, indexDir: string, chunkSize: int, chunkOverlap: int, k: int, useMmr: bool)

  /** `RAGConfig(data_dir, index_dir)` with every other field left at its default. */
  function DefaultConfig(dataDir: string, indexDir: string): RagConfig {
    RagConfig(dataDir, indexDir, 800, 150, 4, true)
  }

  /** The retriever's search type and keyword arguments. */
  datatype SearchSettings = SearchSettings(mmr: bool, k: int, fetchK: Option<int>)

  function Max(a: int, b: int): int {
    if a >= b then a else b
  }

  /** The retriever the chain builds: MMR fetches `max(10, 3k)` candidates. */
  function Settings(cfg: RagConfig): (r: SearchSettings)
    ensures r.k == cfg.k && r.mmr == cfg.useMmr
    ensures r.fetchK.Some? <==> cfg.useMmr
    ensures r.fetchK.Some? ==> r.fetchK.value >= 10 && r.fetchK.value >= 3 * cfg.k
    ensures r.fetchK.Some? ==> r.fetchK.value == 10 || r.fetchK.value == 3 * cfg.k
  {
    if cfg.useMmr then SearchSettings(true, cfg.k, Some(Max(10, cfg.k * 3))) else SearchSettings(false, cfg.k, None)
  }

  /** With the defaults the chain retrieves 4 chunks by MMR from 12 candidates, split at 800
      characters with 150 of overlap. */
  lemma DefaultRetrieval(dataDir: string, indexDir: string)
    ensures var cfg := DefaultConfig(dataDir, indexDir);
            cfg.chunkSize == 800 && cfg.chunkOverlap == 150
            && Settings(cfg) == SearchSettings(true, 4, Some(12))
  {
  }

  // ---------------------------------------------------------------- lines

  /** The boundaries `str.splitlines` splits at. */
  predicate IsLineBreak(c: char) {
    c == '\n' || c == '\r' || c == '\U{000B}' || c == '\U{000C}' || ('\U{001C}' <= c <= '\U{001E}')
    || c == '\U{0085}' || c == '\U{2028}' || c == '\U{2029}'
  }

  /** The text between line breaks. Unlike `splitlines` it gives an empty piece between
      `\r` and `\n` and after a final break; an empty piece never holds a source line. */
  function SplitLines(s: string): (r: seq<string>)
    ensures |r| >= 1
    decreases |s|
  {
    if s == [] then [""]
    else
      var rest := SplitLines(s[1..]);
      if IsLineBreak(s[0]) then [""] + rest else [[s[0]] + rest[0]] + rest[1..]
  }

  lemma {:induction false} SplitLinesJoin(a: string, c: char, b: string)
    requires IsLineBreak(c)
    ensures SplitLines(a + [c] + b) == SplitLines(a) + SplitLines(b)
    decreases |a|
  {
    if a == [] {
      assert a + [c] + b == [c] + b;
      assert ([c] + b)[1..] == b;
    } else {
      assert (a + [c] + b)[1..] == a[1..] + [c] + b;
      SplitLinesJoin(a[1..], c, b);
    }
  }

  /** Text with no line break is one line. */
  lemma {:induction false} SplitLinesSingle(s: string)
    requires forall k :: 0 <= k < |s| ==> !IsLineBreak(s[k])
    ensures SplitLines(s) == [s]
    decreases |s|
  {
    if s != [] {
      SplitLinesSingle(s[1..]);
      assert [s[0]] + s[1..] == s;
    }
  }

  /** Text glued without a break onto the first line of `s`. */
  lemma {:induction false} SplitLinesPrefix(p: string, s: string)
    requires forall k :: 0 <= k < |p| ==> !IsLineBreak(p[k])
    ensures SplitLines(p + s) == [p + SplitLines(s)[0]] + SplitLines(s)[1..]
    decreases |p|
  {
    if p == [] {
      assert p + s == s;
      assert p + SplitLines(s)[0] == SplitLines(s)[0];
      assert SplitLines(s) == [SplitLines(s)[0]] + SplitLines(s)[1..];
    } else {
      assert (p + s)[1..] == p[1..] + s;
      SplitLinesPrefix(p[1..], s);
      assert (p + s)[0] == p[0];
      assert [p[0]] + (p[1..] + SplitLines(s)[0]) == p + SplitLines(s)[0];
    }
  }

  // ---------------------------------------------------------------- the stub model

  /** Python's `str.isspace` characters, which `strip()` removes. */
  predicate IsPySpace(c: char) {
    c == '\t' || c == '\n' || c == '\U{000B}' || c == '\U{000C}' || c == '\r' || ('\U{001C}' <= c <= '\U{001F}')
    || c == ' ' || c == '\U{0085}' || c == '\U{00A0}' || c == '\U{1680}' || ('\U{2000}' <= c <= '\U{200A}')
    || c == '\U{2028}' || c == '\U{2029}' || c == '\U{202F}' || c == '\U{205F}' || c == '\U{3000}'
  }

  function StripStart(s: string): (r: string)
    ensures |r| <= |s| && r == s[|s| - |r|..]
    ensures r != [] ==> !IsPySpace(r[0])
    decreases |s|
  {
    if s != [] && IsPySpace(s[0]) then StripStart(s[1..]) else s
  }

  function StripEnd(s: string): (r: string)
    ensures |r| <= |s| && r == s[..|r|]
    ensures r != [] ==> !IsPySpace(r[|r| - 1])
    decreases |s|
  {
    if s != [] && IsPySpace(s[|s| - 1]) then StripEnd(s[..|s| - 1]) else s
  }

  /** `s.strip()`. */
  function Strip(s: string): string {
    StripEnd(StripStart(s))
  }

  /** `s.replace(pat, "")`: every non-overlapping occurrence, left to right, removed. */
  function RemoveAll(s: string, pat: string): (r: string)
    requires pat != []
    ensures |r| <= |s|
    decreases |s|
  {
    if pat <= s then RemoveAll(s[|pat|..], pat)
    else if s == [] then []
    else [s[0]] + RemoveAll(s[1..], pat)
  }

  /** A pattern whose first character is absent removes nothing. */
  lemma {:induction false} RemoveAllAbsent(s: string, pat: string)
    requires pat != [] && pat[0] !in s
    ensures RemoveAll(s, pat) == s
    decreases |s|
  {
    if s != [] {
      assert s[0] != pat[0];
      RemoveAllAbsent(s[1..], pat);
      assert [s[0]] + s[1..] == s;
    }
  }

  const SOURCE_TAG := "[SOURCE:"

  /** The name on a `[SOURCE: ...]` line. */
  function SourceName(line: string): string {
    Strip(RemoveAll(RemoveAll(line, SOURCE_TAG), "]"))
  }

  /** What one line contributes: its name when it begins with the tag. */
  function Picked(line: string): seq<string> {
    if StartsWith(line, SOURCE_TAG) then [SourceName(line)] else []
  }

  /** What `pick` gives for each line, in order. */
  function Collect(lines: seq<string>, pick: string -> seq<string>): seq<string>
    decreases |lines|
  {
    if lines == [] then [] else Collect(lines[..|lines| - 1], pick) + pick(lines[|lines| - 1])
  }

  /** The names on the lines that begin with the tag, in order. */
  function Sources(lines: seq<string>): seq<string> {
    Collect(lines, Picked)
  }

  lemma {:induction false} CollectAppend(a: seq<string>, b: seq<string>, pick: string -> seq<string>)
    ensures Collect(a + b, pick) == Collect(a, pick) + Collect(b, pick)
    decreases |b|
  {
    if b == [] {
      assert a + b == a;
    } else {
      var b' := b[..|b| - 1];
      var ab := a + b;
      assert ab[..|ab| - 1] == a + b';
      assert ab[|ab| - 1] == b[|b| - 1];
      CollectAppend(a, b', pick);
      assert Collect(ab, pick) == Collect(a + b', pick) + pick(b[|b| - 1]);
      assert Collect(b, pick) == Collect(b', pick) + pick(b[|b| - 1]);
    }
  }

  lemma SourcesAppend(a: seq<string>, b: seq<string>)
    ensures Sources(a + b) == Sources(a) + Sources(b)
  {
    CollectAppend(a, b, Picked);
  }

  /** A single line's sources. */
  lemma SourcesOne(line: string)
    ensures Sources([line]) == Picked(line)
  {
    assert [line][..0] == [] && [line][0] == line;
    assert Collect([], Picked) == [];
  }

  /** The sources the stub sees in a whole text. */
  function TextSources(s: string): seq<string> {
    Sources(SplitLines(s))
  }

  lemma TextSourcesJoin(a: string, c: char, b: string)
    requires IsLineBreak(c)
    ensures TextSources(a + [c] + b) == TextSources(a) + TextSources(b)
  {
    SplitLinesJoin(a, c, b);
    SourcesAppend(SplitLines(a), SplitLines(b));
  }

  /** Order-preserving de-duplication: each name at its first occurrence. */
  function Dedupe(s: seq<string>): seq<string>
    decreases |s|
  {
    if s == [] then []
    else
      var init := s[..|s| - 1];
      if s[|s| - 1] in init then Dedupe(init) else Dedupe(init) + [s[|s| - 1]]
  }

  /** The de-duplicated list holds each name once, and exactly the names of the input. */
  lemma {:induction false} DedupeMeaning(s: seq<string>)
    ensures forall x :: x in Dedupe(s) <==> x in s
    ensures forall i, j :: 0 <= i < j < |Dedupe(s)| ==> Dedupe(s)[i] != Dedupe(s)[j]
    decreases |s|
  {
    if s != [] {
      var init := s[..|s| - 1];
      DedupeMeaning(init);
      assert s == init + [s[|s| - 1]];
    }
  }

  /** De-duplication keeps the names in the order of their first occurrences, starting with
      the first name, and repeating the whole list adds nothing. */
  lemma {:induction false} DedupeOrder(s: seq<string>)
    ensures forall x :: x in Dedupe(s) ==> x in s
    ensures forall i, j :: 0 <= i < j < |Dedupe(s)| ==> FirstIndex(s, Dedupe(s)[i]) < FirstIndex(s, Dedupe(s)[j])
    ensures s != [] ==> Dedupe(s) != [] && Dedupe(s)[0] == s[0]
    ensures Dedupe(s + s) == Dedupe(s)
    decreases |s|
  {
    DedupeFirstOccurrences(s);
    DedupeIdempotentSuffix(s, s, |s|);
    assert s + s[..|s|] == s + s;
    if s != [] {
      DedupeFirst(s);
    }
  }

  lemma {:induction false} DedupeFirst(s: seq<string>)
    requires s != []
    ensures Dedupe(s) != [] && Dedupe(s)[0] == s[0]
    decreases |s|
  {
    if |s| > 1 {
      var init := s[..|s| - 1];
      DedupeFirst(init);
      assert init[0] == s[0];
    } else {
      assert s[..0] == [];
    }
  }

  /** The position of the first occurrence of a name. */
  function FirstIndex(s: seq<string>, x: string): (r: nat)
    requires x in s
    ensures r < |s| && s[r] == x && x !in s[..r]
    decreases |s|
  {
    if s[0] == x then 0
    else
      var r := 1 + FirstIndex(s[1..], x);
      assert s[..r] == [s[0]] + s[1..][..r - 1];
      r
  }

  /** A position holding the name with no earlier occurrence is the first index. */
  lemma FirstIndexAt(s: seq<string>, x: string, k: nat)
    requires k < |s| && s[k] == x && x !in s[..k]
    ensures FirstIndex(s, x) == k
  {
    var r := FirstIndex(s, x);
    assert forall m :: 0 <= m < k ==> s[..k][m] == s[m];
    assert forall m :: 0 <= m < r ==> s[..r][m] == s[m];
  }

  /** Appending a name keeps the first index of every name already present. */
  lemma FirstIndexSnoc(init: seq<string>, y: string, x: string)
    requires x in init
    ensures FirstIndex(init + [y], x) == FirstIndex(init, x)
  {
    var k := FirstIndex(init, x);
    assert (init + [y])[..k] == init[..k];
    FirstIndexAt(init + [y], x, k);
  }

  /** De-duplication lists the names in the order of their first occurrences. */
  lemma {:induction false} DedupeFirstOccurrences(s: seq<string>)
    ensures forall x :: x in Dedupe(s) ==> x in s
    ensures forall i, j :: 0 <= i < j < |Dedupe(s)| ==> FirstIndex(s, Dedupe(s)[i]) < FirstIndex(s, Dedupe(s)[j])
    decreases |s|
  {
    if s != [] {
      var init, y := s[..|s| - 1], s[|s| - 1];
      assert s == init + [y];
      DedupeFirstOccurrences(init);
      var d := Dedupe(init);
      forall x | x in d
        ensures FirstIndex(s, x) == FirstIndex(init, x)
      {
        FirstIndexSnoc(init, y, x);
      }
      if y !in init {
        assert y !in s[..|init|];
        FirstIndexAt(s, y, |init|);
        assert Dedupe(s) == d + [y];
        forall i, j | 0 <= i < j < |Dedupe(s)|
          ensures FirstIndex(s, Dedupe(s)[i]) < FirstIndex(s, Dedupe(s)[j])
        {
          assert Dedupe(s)[i] == d[i] && d[i] in d;
          if j < |d| {
            assert Dedupe(s)[j] == d[j] && d[j] in d;
          }
        }
      }
    }
  }

  /** Repeating names already seen adds nothing. */
  lemma {:induction false} DedupeIdempotentSuffix(s: seq<string>, t: seq<string>, n: nat)
    requires n <= |t| && forall x :: x in t ==> x in s
    ensures Dedupe(s + t[..n]) == Dedupe(s)
    decreases n
  {
    if n == 0 {
      assert s + t[..0] == s;
    } else {
      DedupeIdempotentSuffix(s, t, n - 1);
      var x := s + t[..n];
      assert x[..|x| - 1] == s + t[..n - 1];
      assert x[|x| - 1] == t[n - 1];
      assert t[n - 1] in s;
    }
  }

  /** `", ".join(names)`, or `'none'` for no names. */
  function SourcesText(names: seq<string>): string {
    if names == [] then "none" else Join(names, ", ")
  }

  const STUB_ANSWER :=
    "1) Supportive response\n"
    + "It makes sense to feel stuck sometimes. If you're dealing with urges, we can try a small step right now.\n\n"
    + "2) Practical next steps\n"
    + "- Name the urge (0-10), then pause and breathe slowly for 60 seconds.\n"
    + "- Delay 10 minutes and do a quick replacement action (walk, water, message a friend).\n"
    + "- Note the trigger: time, mood, place, or device.\n\n"
    + "3) Sources used\n"

  /** What `fake_llm(prompt)` answers. */
  function StubAnswer(prompt: string): string {
    STUB_ANSWER + SourcesText(Dedupe(TextSources(prompt)))
  }

  /** `fake_llm(prompt)`: collect the tagged lines' names, then drop repeats with a `seen`
      set. */
  method FakeLlm(prompt: string) returns (answer: string)
    ensures answer == StubAnswer(prompt)
  {
    var sources := CollectSources(SplitLines(prompt));
    var unique := Unique(sources);
    answer := STUB_ANSWER + SourcesText(unique);
  }

  /** The first loop of `fake_llm`. */
  method CollectSources(lines: seq<string>) returns (sources: seq<string>)
    ensures sources == Sources(lines)
  {
    sources := [];
    var i := 0;
    while i < |lines|
      invariant 0 <= i <= |lines| && sources == Collect(lines[..i], Picked)
    {
      CollectPrefix(lines, i, Picked);
      sources := sources + Picked(lines[i]);
      i := i + 1;
    }
    assert lines[..i] == lines;
  }

  lemma CollectPrefix(lines: seq<string>, i: nat, pick: string -> seq<string>)
    requires i < |lines|
    ensures Collect(lines[..i + 1], pick) == Collect(lines[..i], pick) + pick(lines[i])
  {
    assert lines[..i + 1][..i] == lines[..i];
  }

  /** The `seen`-set comprehension of `fake_llm`. */
  method Unique(sources: seq<string>) returns (unique: seq<string>)
    ensures unique == Dedupe(sources)
  {
    var seen: set<string> := {};
    unique := [];
    var j := 0;
    while j < |sources|
      invariant 0 <= j <= |sources| && unique == Dedupe(sources[..j])
      invariant forall x :: x in seen <==> x in sources[..j]
    {
      assert sources[..j + 1][..j] == sources[..j];
      if sources[j] !in seen {
        unique := unique + [sources[j]];
      }
      seen := seen + {sources[j]};
      j := j + 1;
    }
    assert sources[..j] == sources;
  }

  // ---------------------------------------------------------------- the prompt

  /** `format_history`'s line for one message: role defaults to `user`, content to `''`. */
  function Turn(msg: map<string, string>): string {
    var role := if "role" in msg then msg["role"] else "user";
    var content := if "content" in msg then msg["content"] else "";
    "<turn role='" + role + "'>" + content + "</turn>"
  }

  function Turns(history: seq<map<string, string>>): (r: seq<string>)
    ensures |r| == |history| && forall i :: 0 <= i < |history| ==> r[i] == Turn(history[i])
  {
    seq(|history|, i requires 0 <= i < |history| => Turn(history[i]))
  }

  /** `format_history(history)`: one turn per message, in order, joined by newlines. */
  method FormatHistory(history: seq<map<string, string>>) returns (r: string)
    ensures r == Join(Turns(history), "\n")
  {
    var out: seq<string> := [];
    for i := 0 to |history|
      invariant out == Turns(history)[..i]
    {
      out := out + [Turn(history[i])];
    }
    assert out == Turns(history);
    r := Join(out, "\n");
  }

  /** Messages whose role and content hold no line break come out one per line. */
  lemma {:induction false} HistoryLines(turns: seq<string>)
    requires forall i, k :: 0 <= i < |turns| && 0 <= k < |turns[i]| ==> !IsLineBreak(turns[i][k])
    ensures SplitLines(Join(turns, "\n")) == (if turns == [] then [""] else turns)
    decreases |turns|
  {
    if |turns| == 1 {
      SplitLinesSingle(turns[0]);
    } else if |turns| > 1 {
      HistoryLines(turns[1..]);
      SplitLinesSingle(turns[0]);
      assert Join(turns, "\n") == turns[0] + ['\n'] + Join(turns[1..], "\n");
      SplitLinesJoin(turns[0], '\n', Join(turns[1..], "\n"));
      assert [turns[0]] + turns[1..] == turns;
    }
  }

  /** A retrieved chunk: its metadata and its text. */
  datatype Document = Document(metadata: map<string, string>, pageContent: string)

  function DocName(d: Document): string {
    if "source" in d.metadata then d.metadata["source"] else "unknown"
  }

  /** One document's block of the context. */
  function Block(d: Document): string {
    "[SOURCE: " + DocName(d) + "]\n" + d.pageContent
  }

  function Blocks(docs: seq<Document>): (r: seq<string>)
    ensures |r| == |docs| && forall i :: 0 <= i < |docs| ==> r[i] == Block(docs[i])
  {
    seq(|docs|, i requires 0 <= i < |docs| => Block(docs[i]))
  }

  /** The context: the blocks joined by a blank line. */
  function Context(docs: seq<Document>): string {
    Join(Blocks(docs), "\n\n")
  }

  /** The fixed text of the prompt, in short pieces. */
  const PROMPT_HEAD := HEAD_ROLE + HEAD_LIMITS + HEAD_STYLE + HEAD_SAFETY + HEAD_RULES + HEAD_CLAIMS + HEAD_CITING + HEAD_HISTORY
  const HEAD_ROLE :=
    "You are UrgeEase, a"
    + " supportive recovery"
    + " assistant for behavioral"
    + " addictions.\n"
  const HEAD_LIMITS :=
    "You are NOT a licensed"
    + " therapist. Do NOT"
    + " diagnose. Do NOT"
    + " prescribe medication.\n"
  const HEAD_STYLE :=
    "Be compassionate,"
    + " non-judgmental, and"
    + " practical.\n"
    + "\n"
  const HEAD_SAFETY :=
    "Safety:\n"
    + "- If the user expresses"
    + " self-harm or suicidal"
    + " intent, stop normal"
    + " coaching and provide"
    + " crisis resources.\n"
  const HEAD_RULES :=
    "\n"
    + "Grounding rules:\n"
    + "- Use ONLY <context> and"
  const HEAD_CLAIMS :=
    " <chat_history> for"
    + " factual claims.\n"
    + "- If the context does not"
  const HEAD_CITING :=
    " contain the answer, say"
    + " you don't have enough"
    + " information from the provided"
    + " sources.\n"
  const HEAD_HISTORY :=
    "- When you use the"
    + " context, cite sources by"
    + " filename.\n"
    + "\n"
    + "<chat_history>"
  const PROMPT_MIDDLE := "</chat_history>\n\n<context>"
  const QUESTION_CLOSE := "</context>\n\n"
  const QUESTION_ASK := "User message: "
  const PROMPT_TAIL := TAIL_ASK + TAIL_STEPS
  const TAIL_ASK := "\nRespond with:\n" + "1) Supportive response\n"
  const TAIL_STEPS := "2) 1-3 practical next steps" + " (CBT/ACT style)\n" + "3) Sources used (filenames)\n"

  /** `build_prompt(chat_history, context, query)`. */
  function BuildPrompt(chatHistory: string, context: string, query: string): string {
    Layout(PROMPT_HEAD, chatHistory, PROMPT_MIDDLE, context, QUESTION_CLOSE + (QUESTION_ASK + (query + "\n" + PROMPT_TAIL)))
  }

  /** The prompt's five parts, one after the other with a line break between each two. */
  function Layout(head: string, chatHistory: string, middle: string, context: string, rest: string): string {
    head + "\n" + (chatHistory + "\n" + (middle + "\n" + (context + "\n" + rest)))
  }

  // ---------------------------------------------------------------- the chain

  /** The answer record: `result`, `source_documents`, `crisis`. */
  datatype ChainResult = ChainResult(result: string, sourceDocuments: seq<Document>, crisis: bool)

  /** `UrgeEaseRAGChain`. `search` is the vector store's retriever for the given settings;
      `llm` is `llm_fn`, with `None` meaning the stub. */
  class Chain {
    const cfg: RagConfig
    const settings: SearchSettings
    const search: (SearchSettings, string) -> seq<Document>
    const llm: Option<string -> string>

    constructor(cfg: RagConfig, search: (SearchSettings, string) -> seq<Document>, llm: Option<string -> string>)
      ensures this.cfg == cfg && settings == Settings(cfg) && this.search == search && this.llm == llm
    {
      this.cfg := cfg;
      this.settings := Settings(cfg);
      this.search := search;
      this.llm := llm;
    }

    /** The prompt the model receives for a question that passed the gate. */
    function PromptFor(question: string, history: Option<seq<map<string, string>>>): string
      reads this
    {
      BuildPrompt(Join(Turns(history.GetOr([])), "\n"), Context(search(settings, question)), question)
    }

    /** `invoke(question, chat_history)`. */
    method Invoke(question: string, history: Option<seq<map<string, string>>>) returns (r: ChainResult)
      ensures IsCrisis(question) ==> r == ChainResult(CRISIS_MESSAGE, [], true)
      ensures !IsCrisis(question) ==>
                r.crisis == false && r.sourceDocuments == search(settings, question)
                && r.result == (match llm
                                case Some(f) => f(PromptFor(question, history))
                                case None => StubAnswer(PromptFor(question, history)))
    {
      if IsCrisis(question) {
        return ChainResult(CRISIS_MESSAGE, [], true);
      }
      var historyText := FormatHistory(history.GetOr([]));
      var docs := search(settings, question);
      var context := Context(docs);
      var prompt := BuildPrompt(historyText, context, question);
      var answer: string;
      match llm {
        case Some(f) => answer := f(prompt);
        case None => answer := FakeLlm(prompt);
      }
      r := ChainResult(answer, docs, false);
    }
  }

  // ---------------------------------------------------------------- end to end

  /** No line of the text begins with the tag. */
  predicate NoSourceLine(s: string) {
    TextSources(s) == []
  }

  /** Text holding no line break. */
  predicate NoBreaks(s: string) {
    forall k :: 0 <= k < |s| ==> !IsLineBreak(s[k])
  }

  /** Text none of whose lines begins with `[`. */
  predicate NoBracketLines(s: string) {
    (s == [] || s[0] != '[') && forall k :: 0 <= k < |s| - 1 && IsLineBreak(s[k]) ==> s[k + 1] != '['
  }

  /** A line that does not begin with `[` is not a source line. */
  lemma NotTagged(line: string)
    requires line == [] || line[0] != '['
    ensures Picked(line) == []
  {
    assert SOURCE_TAG[0] == '[';
  }

  lemma EmptyNoSource()
    ensures NoSourceLine("")
  {
    assert SplitLines("") == [""];
    NotTagged("");
    SourcesOne("");
  }

  /** The lines after the first of a text where no break is followed by `[` hold no source,
      and the first line begins with the text's first character. */
  lemma {:induction false} LaterLinesNoSource(s: string)
    requires forall k :: 0 <= k < |s| - 1 && IsLineBreak(s[k]) ==> s[k + 1] != '['
    ensures Sources(SplitLines(s)[1..]) == []
    ensures s != [] && !IsLineBreak(s[0]) ==> SplitLines(s)[0] != [] && SplitLines(s)[0][0] == s[0]
    ensures s == [] || IsLineBreak(s[0]) ==> SplitLines(s)[0] == []
    decreases |s|
  {
    if s != [] {
      var t := s[1..];
      var rest := SplitLines(t);
      forall k | 0 <= k < |t| - 1 && IsLineBreak(t[k])
        ensures t[k + 1] != '['
      {
        assert t[k] == s[k + 1] && t[k + 1] == s[k + 2];
      }
      LaterLinesNoSource(t);
      if IsLineBreak(s[0]) {
        assert SplitLines(s)[1..] == rest;
        assert rest == [rest[0]] + rest[1..];
        SourcesAppend([rest[0]], rest[1..]);
        SourcesOne(rest[0]);
        if t != [] && !IsLineBreak(t[0]) {
          assert t[0] == s[1];
        }
        NotTagged(rest[0]);
      } else {
        assert SplitLines(s)[1..] == rest[1..];
      }
    }
  }

  /** Text none of whose lines begins with `[` holds no source line. */
  lemma NoBracketNoSource(s: string)
    requires NoBracketLines(s)
    ensures NoSourceLine(s)
  {
    LaterLinesNoSource(s);
    var ls := SplitLines(s);
    assert ls == [ls[0]] + ls[1..];
    SourcesAppend([ls[0]], ls[1..]);
    SourcesOne(ls[0]);
    NotTagged(ls[0]);
  }

  lemma NoBreaksAppend(a: string, b: string)
    requires NoBreaks(a) && NoBreaks(b)
    ensures NoBreaks(a + b)
  {
    forall k | 0 <= k < |a + b|
      ensures !IsLineBreak((a + b)[k])
    {
      if k >= |a| {
        assert (a + b)[k] == b[k - |a|];
      }
    }
  }

  /** Text ending in a line break and with no line beginning with `[`, put in front of a text
      with no source line. */
  lemma BrokenPrefix(a: string, s: string)
    requires a != [] && IsLineBreak(a[|a| - 1]) && NoBracketLines(a) && NoSourceLine(s)
    ensures NoSourceLine(a + s)
  {
    var a' := a[..|a| - 1];
    assert a == a' + [a[|a| - 1]];
    assert a + s == a' + [a[|a| - 1]] + s;
    assert NoBracketLines(a') by {
      forall k | 0 <= k < |a'| - 1 && IsLineBreak(a'[k])
        ensures a'[k + 1] != '['
      {
        assert a'[k] == a[k] && a'[k + 1] == a[k + 1];
      }
    }
    NoBracketNoSource(a');
    TextSourcesJoin(a', a[|a| - 1], s);
  }

  /** A line glued in front of a text with no source line, when it does not begin with `[`. */
  lemma GluedLine(p: string, s: string)
    requires p != [] && p[0] != '[' && NoBreaks(p)
    requires NoSourceLine(s)
    ensures NoSourceLine(p + s)
  {
    SplitLinesPrefix(p, s);
    var ls := SplitLines(s);
    assert ls == [ls[0]] + ls[1..];
    SourcesAppend([ls[0]], ls[1..]);
    SourcesAppend([p + ls[0]], ls[1..]);
    NotTagged(p + ls[0]);
    SourcesOne(p + ls[0]);
    SourcesOne(ls[0]);
  }

  /** Text holding no `[` at all has no line beginning with one. */
  lemma BracketFree(s: string)
    requires '[' !in s
    ensures NoBracketLines(s)
  {
    forall j | 0 <= j < |s|
      ensures s[j] != '['
    {
      assert s[j] in s;
    }
  }

  lemma RoleFree()
    ensures '[' !in HEAD_ROLE
  {
  }

  lemma LimitsFree()
    ensures '[' !in HEAD_LIMITS
  {
  }

  lemma StyleFree()
    ensures '[' !in HEAD_STYLE
  {
  }

  lemma SafetyFree()
    ensures '[' !in HEAD_SAFETY
  {
  }

  lemma RulesFree()
    ensures '[' !in HEAD_RULES
  {
  }

  lemma ClaimsFree()
    ensures '[' !in HEAD_CLAIMS
  {
  }

  lemma CitingFree()
    ensures '[' !in HEAD_CITING
  {
  }

  lemma HistoryFree()
    ensures '[' !in HEAD_HISTORY
  {
  }

  /** No line of the prompt's fixed text begins with `[`. */
  lemma PlainHead()
    ensures NoBracketLines(PROMPT_HEAD)
  {
    RoleFree();
    LimitsFree();
    StyleFree();
    SafetyFree();
    RulesFree();
    ClaimsFree();
    CitingFree();
    HistoryFree();
    BracketFree(PROMPT_HEAD);
  }

  lemma AskFree()
    ensures '[' !in TAIL_ASK
  {
  }

  lemma StepsFree()
    ensures '[' !in TAIL_STEPS
  {
  }

  lemma PlainTail()
    ensures NoBracketLines(PROMPT_TAIL)
  {
    AskFree();
    StepsFree();
    BracketFree(PROMPT_TAIL);
  }

  /** A name fit for a `[SOURCE: ...]` line: one line, no brackets, nothing to strip. */
  predicate PlainName(n: string) {
    '[' !in n && ']' !in n && NoBreaks(n) && Strip(n) == n
  }

  /** The tag line of a document gives back its name. */
  lemma TagLineName(n: string)
    requires PlainName(n)
    ensures SourceName("[SOURCE: " + n + "]") == n
  {
    var line := "[SOURCE: " + n + "]";
    var rest := " " + n + "]";
    assert line == SOURCE_TAG + rest;
    assert line[|SOURCE_TAG|..] == rest;
    assert '[' !in rest by {
      assert forall k :: 0 <= k < |rest| ==> rest[k] == ' ' || rest[k] == ']' || rest[k] == n[k - 1];
    }
    RemoveAllAbsent(rest, SOURCE_TAG);
    assert RemoveAll(line, SOURCE_TAG) == rest;
    assert rest == (" " + n) + "]";
    RemoveLast(" " + n);
    StripSpaced(n);
  }

  lemma {:induction false} RemoveLast(s: string)
    requires ']' !in s
    ensures RemoveAll(s + "]", "]") == s
    decreases |s|
  {
    if s == [] {
      assert s + "]" == "]";
      assert "]"[1..] == [];
    } else {
      assert (s + "]")[1..] == s[1..] + "]";
      assert s[0] != ']';
      RemoveLast(s[1..]);
      assert [s[0]] + s[1..] == s;
    }
  }

  lemma StripStartNoLead(n: string)
    requires Strip(n) == n
    ensures StripStart(n) == n && StripEnd(n) == n
  {
    var a := StripStart(n);
    assert |StripEnd(a)| <= |a| <= |n|;
    assert a == n[|n| - |a|..];
  }

  lemma StripSpaced(n: string)
    requires Strip(n) == n
    ensures Strip(" " + n) == n
  {
    StripStartNoLead(n);
    var s := " " + n;
    assert IsPySpace(s[0]) && s[1..] == n;
    assert StripStart(s) == StripStart(n);
  }

  /** The tag line is one line, and the stub reads the name back from it. */
  lemma TagLineSources(n: string)
    requires PlainName(n)
    ensures TextSources("[SOURCE: " + n + "]") == [n]
  {
    var open := "[SOURCE: ";
    var tag := open + n + "]";
    NoBreaksAppend(open, n);
    NoBreaksAppend(open + n, "]");
    SplitLinesSingle(tag);
    SourcesOne(tag);
    assert SOURCE_TAG <= tag;
    TagLineName(n);
  }

  /** One document block lists its name, when the name is plain and its text has no
      source line. */
  lemma BlockSources(d: Document)
    requires PlainName(DocName(d)) && NoSourceLine(d.pageContent)
    ensures TextSources(Block(d)) == [DocName(d)]
  {
    var n := DocName(d);
    var tag := "[SOURCE: " + n + "]";
    assert Block(d) == tag + ['\n'] + d.pageContent;
    TextSourcesJoin(tag, '\n', d.pageContent);
    TagLineSources(n);
  }

  /** The documents' names, in retrieval order. */
  function Names(docs: seq<Document>): (r: seq<string>)
    ensures |r| == |docs| && forall i :: 0 <= i < |docs| ==> r[i] == DocName(docs[i])
  {
    seq(|docs|, i requires 0 <= i < |docs| => DocName(docs[i]))
  }

  /** The context lists the documents' names in retrieval order. */
  lemma {:induction false} ContextSources(docs: seq<Document>)
    requires forall i :: 0 <= i < |docs| ==> PlainName(DocName(docs[i])) && NoSourceLine(docs[i].pageContent)
    ensures TextSources(Context(docs)) == Names(docs)
    decreases |docs|
  {
    if docs == [] {
      EmptyNoSource();
    } else if |docs| == 1 {
      BlockSources(docs[0]);
      assert Names(docs) == [DocName(docs[0])];
    } else {
      var rest := docs[1..];
      forall i | 0 <= i < |rest|
        ensures PlainName(DocName(rest[i])) && NoSourceLine(rest[i].pageContent)
      {
        assert rest[i] == docs[i + 1];
      }
      ContextSources(rest);
      BlockSources(docs[0]);
      ContextStep(docs);
      NamesCons(docs);
    }
  }

  lemma NamesCons(docs: seq<Document>)
    requires docs != []
    ensures Names(docs) == [DocName(docs[0])] + Names(docs[1..])
  {
  }

  lemma ContextStep(docs: seq<Document>)
    requires |docs| > 1
    ensures TextSources(Context(docs)) == TextSources(Block(docs[0])) + TextSources(Context(docs[1..]))
  {
    var rest := docs[1..];
    assert Blocks(docs)[1..] == Blocks(rest);
    var tail := Context(rest);
    var head := Block(docs[0]);
    assert Context(docs) == head + "\n\n" + tail;
    BlankLineSplit(head, tail);
    TextSourcesJoin(head, '\n', [] + ['\n'] + tail);
    TextSourcesJoin([], '\n', tail);
    EmptyNoSource();
  }

  lemma BlankLineSplit(a: string, b: string)
    ensures a + "\n\n" + b == a + ['\n'] + ([] + ['\n'] + b)
  {
    assert [] + ['\n'] + b == ['\n'] + b;
    assert "\n\n" == ['\n'] + ['\n'];
  }

  /** The text between the history and the context holds no source line. */
  lemma PlainMiddle()
    ensures NoSourceLine(PROMPT_MIDDLE)
  {
    BracketFree(PROMPT_MIDDLE);
    NoBracketNoSource(PROMPT_MIDDLE);
  }

  /** The close of the context ends with a line break, and the question's label is one line
      that does not begin with `[`. */
  lemma PlainQuestionLines()
    ensures QUESTION_CLOSE != [] && IsLineBreak(QUESTION_CLOSE[|QUESTION_CLOSE| - 1]) && NoBracketLines(QUESTION_CLOSE)
    ensures QUESTION_ASK != [] && QUESTION_ASK[0] != '[' && NoBreaks(QUESTION_ASK)
  {
    BracketFree(QUESTION_CLOSE);
  }

  /** The question's line and what follows it hold no source line. */
  lemma QuestionTail(question: string)
    requires NoSourceLine(question)
    ensures NoSourceLine(QUESTION_CLOSE + (QUESTION_ASK + (question + "\n" + PROMPT_TAIL)))
  {
    PlainTail();
    NoBracketNoSource(PROMPT_TAIL);
    TextSourcesJoin(question, '\n', PROMPT_TAIL);
    PlainQuestionLines();
    GluedLine(QUESTION_ASK, question + ['\n'] + PROMPT_TAIL);
    BrokenPrefix(QUESTION_CLOSE, QUESTION_ASK + (question + ['\n'] + PROMPT_TAIL));
  }

  /** The prompt's layout: five parts joined by line breaks. When the first, third and
      fifth hold no source line, the sources are those of the second and the fourth. */
  lemma FivePartSources(head: string, historyText: string, middle: string, context: string, rest: string)
    requires NoSourceLine(head) && NoSourceLine(middle) && NoSourceLine(rest)
    ensures TextSources(Layout(head, historyText, middle, context, rest)) == TextSources(historyText) + TextSources(context)
  {
    var p3 := context + ['\n'] + rest;
    var p2 := middle + ['\n'] + p3;
    var p1 := historyText + ['\n'] + p2;
    TextSourcesJoin(context, '\n', rest);
    assert TextSources(p3) == TextSources(context);
    TextSourcesJoin(middle, '\n', p3);
    assert TextSources(p2) == TextSources(context);
    TextSourcesJoin(historyText, '\n', p2);
    TextSourcesJoin(head, '\n', p1);
    assert TextSources(head + ['\n'] + p1) == TextSources(p1);
  }

  /** With a question holding no source line, the sources the stub sees in a prompt are
      those of the history followed by those of the context. */
  lemma PromptSources(historyText: string, context: string, question: string)
    requires NoSourceLine(question)
    ensures TextSources(BuildPrompt(historyText, context, question)) == TextSources(historyText) + TextSources(context)
  {
    var rest := QUESTION_CLOSE + (QUESTION_ASK + (question + "\n" + PROMPT_TAIL));
    PlainHead();
    NoBracketNoSource(PROMPT_HEAD);
    PlainMiddle();
    QuestionTail(question);
    FivePartSources(PROMPT_HEAD, historyText, PROMPT_MIDDLE, context, rest);
  }

  /** End to end, with the stub model: when the history and the question hold no source
      line, and every retrieved document has a plain name and no source line in its text,
      the answer lists the documents' names in retrieval order, each once. */
  lemma StubListsRetrievedSources(historyText: string, docs: seq<Document>, question: string)
    requires NoSourceLine(historyText) && NoSourceLine(question)
    requires forall i :: 0 <= i < |docs| ==> PlainName(DocName(docs[i])) && NoSourceLine(docs[i].pageContent)
    ensures StubAnswer(BuildPrompt(historyText, Context(docs), question))
            == STUB_ANSWER + SourcesText(Dedupe(Names(docs)))
  {
    var prompt := BuildPrompt(historyText, Context(docs), question);
    PromptSources(historyText, Context(docs), question);
    ContextSources(docs);
    assert TextSources(prompt) == Names(docs);
  }
}
