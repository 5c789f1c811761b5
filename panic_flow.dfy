/**
 * The panic-button intervention: a four-step flow `sos -> method -> log -> success`.
 *
 * Holding the SOS button for 2000 ms activates one of ten methods, chosen when the flow
 * opens. Each method keeps its own counter, countdown or text. The log step records one
 * trigger-log entry. Elapsed time, the random draw and the one-second timer ticks are
 * inputs; every delayed `setTimeout` call is taken to fire at once.
 */
module PanicFlow {
  import opened Wrappers
  import opened JsText
  import opened Onboarding

  datatype Step = Sos | MethodStep | LogStep | SuccessStep

  datatype PanicMethod =
    | PhysiologicalSigh | ColdWater | Grounding54321 | MathSabotage | TenMinuteContract
    | UrgeSurfing | PhysicalEnergy | ReverseVisualization | IdentityFlashcard | EnvironmentalReset

  /** `PANIC_METHODS`, in order. */
  const PANIC_METHODS: seq<PanicMethod> := [
    PhysiologicalSigh, ColdWater, Grounding54321, MathSabotage, TenMinuteContract,
    UrgeSurfing, PhysicalEnergy, ReverseVisualization, IdentityFlashcard, EnvironmentalReset]

  /** The method's identifier, as logged. */
  function MethodName(m: PanicMethod): string {
    match m
    case PhysiologicalSigh => "physiological-sigh"
    case ColdWater => "cold-water"
    case Grounding54321 => "grounding-54321"
    case MathSabotage => "math-sabotage"
    case TenMinuteContract => "10-minute-contract"
    case UrgeSurfing => "urge-surfing"
    case PhysicalEnergy => "physical-energy"
    case ReverseVisualization => "reverse-visualization"
    case IdentityFlashcard => "identity-flashcard"
    case EnvironmentalReset => "environmental-reset"
  }

  /** The list holds every method exactly once, so a logged name identifies its method. */
  lemma MethodsEnumerated()
    ensures |PANIC_METHODS| == 10
    ensures forall m: PanicMethod :: m in PANIC_METHODS
    ensures forall i, j :: 0 <= i < j < |PANIC_METHODS| ==> MethodName(PANIC_METHODS[i]) != MethodName(PANIC_METHODS[j])
  {
    forall m: PanicMethod
      ensures m in PANIC_METHODS
    {
      match m
      case PhysiologicalSigh => assert PANIC_METHODS[0] == m;
      case ColdWater => assert PANIC_METHODS[1] == m;
      case Grounding54321 => assert PANIC_METHODS[2] == m;
      case MathSabotage => assert PANIC_METHODS[3] == m;
      case TenMinuteContract => assert PANIC_METHODS[4] == m;
      case UrgeSurfing => assert PANIC_METHODS[5] == m;
      case PhysicalEnergy => assert PANIC_METHODS[6] == m;
      case ReverseVisualization => assert PANIC_METHODS[7] == m;
      case IdentityFlashcard => assert PANIC_METHODS[8] == m;
      case EnvironmentalReset => assert PANIC_METHODS[9] == m;
    }
  }

  /** The `EXERCISE` constants, whose values live outside this model. */
  datatype Exercise = Exercise(
    coldWaterCountdownSeconds: nat,
    contractDurationSeconds: nat,
    urgeSurfingDurationSeconds: nat,
    mathStartValue: int,
    mathProblemsCount: nat,
    mathSubtractionValue: int,
    groundingSensesCount: nat,
    totalBreaths: nat)

  // ---------------------------------------------------------------- the hold-to-activate gate

  const HOLD_MS: int := 2000

  /** `Math.min((elapsed / 2000) * 100, 100)`. */
  function PressProgress(elapsed: int): (r: real)
    ensures r <= 100.0
    ensures elapsed >= 0 ==> r >= 0.0
    ensures elapsed >= HOLD_MS ==> r == 100.0
    ensures elapsed < HOLD_MS ==> r == elapsed as real / 20.0
  {
    var p := elapsed as real / 2000.0 * 100.0;
    if p < 100.0 then p else 100.0
  }

  // ---------------------------------------------------------------- counters and countdowns

  /** One second of a countdown: `prev <= 1 ? 0 : prev - 1`. */
  function Tick(prev: int): (r: int)
    ensures r >= 0
    ensures prev <= 1 ==> r == 0
    ensures prev > 1 ==> r == prev - 1
  {
    if prev <= 1 then 0 else prev - 1
  }

  function Ticks(v: int, n: nat): int
    decreases n
  {
    if n == 0 then v else Ticks(Tick(v), n - 1)
  }

  /** `n` ticks from `v >= 0` leave `max(v - n, 0)`: the countdown never goes negative,
      reaches 0 after `v` ticks and then stays there. */
  lemma {:induction false} TicksFormula(v: nat, n: nat)
    ensures Ticks(v, n) == if n <= v then v - n else 0
    decreases n
  {
    if n > 0 {
      TicksFormula(Tick(v), n - 1);
    }
  }

  /** The contract clock's text: `mm:ss`, each part zero-padded to two digits. */
  function ClockText(t: nat): string {
    PadStart(NatToDecimal(t / 60), 2, '0') + ":" + PadStart(NatToDecimal(t % 60), 2, '0')
  }

  lemma ShortNumeral(n: nat)
    requires n < 100
    ensures |NatToDecimal(n)| <= 2
  {
    if n >= 10 {
      assert NatToDecimal(n) == NatToDecimal(n / 10) + [DigitChar(n % 10)];
    }
  }

  lemma PaddedValue(n: nat)
    ensures var p := PadStart(NatToDecimal(n), 2, '0');
            (forall i :: 0 <= i < |p| ==> IsDigit(p[i])) && DecimalValue(p) == n
  {
    var d := NatToDecimal(n);
    var p := PadStart(d, 2, '0');
    var z := |p| - |d|;
    assert p == seq(z, _ => '0') + d;
    DecimalLeadingZeros(z, d);
    DecimalRoundTrip(n);
  }

  /** The clock reads back as minutes `t div 60` and seconds `t mod 60`; the seconds always
      take exactly two digits. */
  lemma ClockTextReads(t: nat)
    ensures var mm := PadStart(NatToDecimal(t / 60), 2, '0');
            var ss := PadStart(NatToDecimal(t % 60), 2, '0');
            ClockText(t) == mm + ":" + ss && |mm| >= 2 && |ss| == 2
            && (forall i :: 0 <= i < |mm| ==> IsDigit(mm[i])) && DecimalValue(mm) == t / 60
            && (forall i :: 0 <= i < |ss| ==> IsDigit(ss[i])) && DecimalValue(ss) == t % 60
  {
    ShortNumeral(t % 60);
    PaddedValue(t / 60);
    PaddedValue(t % 60);
  }

  // ---------------------------------------------------------------- math sabotage

  datatype MathProblem = MathProblem(a: int, b: int, answer: int)

  /** The chain of subtraction problems: problem `i` subtracts from `START - i * SUB`. */
  function MathProblems(ex: Exercise): (r: seq<MathProblem>)
    ensures |r| == ex.mathProblemsCount
  {
    seq(ex.mathProblemsCount, i =>
      MathProblem(ex.mathStartValue - i * ex.mathSubtractionValue, ex.mathSubtractionValue,
                  ex.mathStartValue - i * ex.mathSubtractionValue - ex.mathSubtractionValue))
  }

  /** Each problem is a correct subtraction, and each starts from the previous answer. */
  lemma MathChain(ex: Exercise)
    ensures var p := MathProblems(ex);
            (forall i :: 0 <= i < |p| ==> p[i].b == ex.mathSubtractionValue && p[i].answer == p[i].a - p[i].b)
            && (|p| > 0 ==> p[0].a == ex.mathStartValue)
            && (forall i :: 0 <= i < |p| - 1 ==> p[i + 1].a == p[i].answer)
  {
    var p := MathProblems(ex);
    forall i | 0 <= i < |p| - 1
      ensures p[i + 1].a == p[i].answer
    {
      calc {
        p[i + 1].a;
        ex.mathStartValue - (i + 1) * ex.mathSubtractionValue;
        ex.mathStartValue - i * ex.mathSubtractionValue - ex.mathSubtractionValue;
      }
    }
  }

  /** The generating loop of `initializeMethod`. */
  method GenerateMathProblems(ex: Exercise) returns (problems: seq<MathProblem>)
    ensures problems == MathProblems(ex)
  {
    problems := [];
    var start := ex.mathStartValue;
    var i := 0;
    while i < ex.mathProblemsCount
      invariant 0 <= i <= ex.mathProblemsCount
      invariant start == ex.mathStartValue - i * ex.mathSubtractionValue
      invariant problems == MathProblems(ex)[..i]
    {
      var subtract := ex.mathSubtractionValue;
      problems := problems + [MathProblem(start, subtract, start - subtract)];
      start := start - subtract;
      i := i + 1;
    }
  }

  /** Problem `i` counts as answered when its entry is non-empty and reads as its answer;
      `toNumber` is `Number(...)` on the typed text, `None` for `NaN`. */
  predicate MathCorrect(problems: seq<MathProblem>, answers: map<nat, string>, toNumber: string -> Option<int>, i: nat)
    requires i < |problems|
  {
    i in answers && answers[i] != "" && toNumber(answers[i]) == Some(problems[i].answer)
  }

  /** `allMathAnswered`. */
  predicate AllMathAnswered(problems: seq<MathProblem>, answers: map<nat, string>, toNumber: string -> Option<int>) {
    |problems| > 0 && forall i :: 0 <= i < |problems| ==> MathCorrect(problems, answers, toNumber, i)
  }

  /** `currentMathIndex`: the first problem not yet answered correctly, `-1` if none. */
  function CurrentMathIndex(problems: seq<MathProblem>, answers: map<nat, string>, toNumber: string -> Option<int>,
                            from: nat := 0): (r: int)
    requires from <= |problems|
    ensures r == -1 || from <= r < |problems|
    ensures r == -1 <==> forall i :: from <= i < |problems| ==> MathCorrect(problems, answers, toNumber, i)
    ensures r >= 0 ==> !MathCorrect(problems, answers, toNumber, r)
                       && forall i :: from <= i < r ==> MathCorrect(problems, answers, toNumber, i)
    decreases |problems| - from
  {
    if from == |problems| then -1
    else if !MathCorrect(problems, answers, toNumber, from) then from
    else CurrentMathIndex(problems, answers, toNumber, from + 1)
  }

  /** Math completes exactly when there are problems and none is left unanswered. */
  lemma MathCompletion(problems: seq<MathProblem>, answers: map<nat, string>, toNumber: string -> Option<int>)
    ensures AllMathAnswered(problems, answers, toNumber) <==>
              |problems| > 0 && CurrentMathIndex(problems, answers, toNumber) == -1
  {
  }

  /** With no problems, math can never complete. */
  lemma NoProblemsNoCompletion(answers: map<nat, string>, toNumber: string -> Option<int>)
    ensures !AllMathAnswered([], answers, toNumber)
  {
  }

  /** The answers typed in order, as decimal text. */
  function IntText(n: int): string {
    if n < 0 then "-" + NatToDecimal(-n) else NatToDecimal(n)
  }

  function TypedAnswers(problems: seq<MathProblem>): (r: map<nat, string>)
    ensures forall i :: 0 <= i < |problems| ==> i in r && r[i] == IntText(problems[i].answer)
  {
    map i: nat | i < |problems| :: IntText(problems[i].answer)
  }

  /** Generated problems can be completed by typing each answer. */
  lemma MathCompletable(ex: Exercise, toNumber: string -> Option<int>)
    requires forall n: int :: toNumber(IntText(n)) == Some(n)
    requires ex.mathProblemsCount > 0
    ensures AllMathAnswered(MathProblems(ex), TypedAnswers(MathProblems(ex)), toNumber)
  {
    var p := MathProblems(ex);
    var answers := TypedAnswers(p);
    forall i | 0 <= i < |p|
      ensures MathCorrect(p, answers, toNumber, i)
    {
      assert answers[i] == IntText(p[i].answer);
      assert toNumber(IntText(p[i].answer)) == Some(p[i].answer);
    }
  }

  // ---------------------------------------------------------------- 5-4-3-2-1 grounding

  /** The senses, by key, in the order they are asked. */
  const SENSES: seq<int> := [5, 4, 3, 2, 1]

  predicate SenseAnswered(answers: map<int, string>, key: int) {
    key in answers && answers[key] != ""
  }

  /** `currentSense`: the first sense whose answer is missing or empty, else the last one. */
  function CurrentSense(answers: map<int, string>, from: nat := 0): (r: int)
    requires from <= |SENSES|
    ensures r in SENSES
    ensures (exists k :: from <= k < |SENSES| && !SenseAnswered(answers, SENSES[k])) ==>
              !SenseAnswered(answers, r)
              && (exists k :: from <= k < |SENSES| && SENSES[k] == r && forall j :: from <= j < k ==> SenseAnswered(answers, SENSES[j]))
    ensures (forall k :: from <= k < |SENSES| ==> SenseAnswered(answers, SENSES[k])) ==> r == 1
    decreases |SENSES| - from
  {
    if from == |SENSES| then 1
    else if !SenseAnswered(answers, SENSES[from]) then SENSES[from]
    else CurrentSense(answers, from + 1)
  }

  /** `allAnswered`: as many recorded keys as senses, whatever their text. */
  predicate AllSensesAnswered(answers: map<int, string>, ex: Exercise) {
    |answers.Keys| == ex.groundingSensesCount
  }

  /** Typing into the current sense records text there, and only there. */
  function GroundingTyped(answers: map<int, string>, text: string): (r: map<int, string>)
    ensures r.Keys == answers.Keys + {CurrentSense(answers)}
    ensures r[CurrentSense(answers)] == text
    ensures forall k :: k in answers && k != CurrentSense(answers) ==> r[k] == answers[k]
  {
    answers[CurrentSense(answers) := text]
  }

  /** Answering the five senses in turn, each with some text, completes the exercise when
      the exercise asks for five. */
  lemma GroundingCompletes(ex: Exercise, t5: string, t4: string, t3: string, t2: string, t1: string)
    requires ex.groundingSensesCount == 5
    requires t5 != "" && t4 != "" && t3 != "" && t2 != ""
    ensures AllSensesAnswered(GroundingTyped(GroundingTyped(GroundingTyped(GroundingTyped(GroundingTyped(map[], t5), t4), t3), t2), t1), ex)
  {
    var none: map<int, string> := map[];
    assert none.Keys == Asked(0);
    var a5 := SenseStep(none, 0, t5);
    var a4 := SenseStep(a5, 1, t4);
    var a3 := SenseStep(a4, 2, t3);
    var a2 := SenseStep(a3, 3, t2);
    var a1 := SenseStep(a2, 4, t1);
    AskedCount(5);
  }

  /** The senses asked before position `k`. */
  ghost function Asked(k: nat): set<int>
    requires k <= |SENSES|
  {
    set j | 0 <= j < k :: SENSES[j]
  }

  /** With the first `k` senses answered with text and nothing else recorded, typing answers
      the `k`-th sense. */
  lemma SenseStep(a: map<int, string>, k: nat, text: string) returns (b: map<int, string>)
    requires k < |SENSES| && a.Keys == Asked(k)
    requires forall j :: 0 <= j < k ==> a[SENSES[j]] != ""
    ensures b == GroundingTyped(a, text) && b.Keys == Asked(k + 1)
    ensures text != "" ==> forall j :: 0 <= j < k + 1 ==> b[SENSES[j]] != ""
  {
    assert SENSES[k] !in a by {
      forall j | 0 <= j < k ensures SENSES[j] != SENSES[k] { }
    }
    var r := CurrentSense(a);
    assert r == SENSES[k] by {
      assert !SenseAnswered(a, SENSES[k]);
      forall j | 0 <= j < k ensures SenseAnswered(a, SENSES[j]) {
        assert SENSES[j] in Asked(k);
      }
    }
    b := GroundingTyped(a, text);
    assert b.Keys == Asked(k + 1) by {
      assert Asked(k + 1) == Asked(k) + {SENSES[k]};
    }
  }

  /** The senses are distinct, so `k` of them are `k` keys. */
  lemma {:induction false} AskedCount(k: nat)
    requires k <= |SENSES|
    ensures |Asked(k)| == k
  {
    if k > 0 {
      AskedCount(k - 1);
      assert Asked(k) == Asked(k - 1) + {SENSES[k - 1]};
      assert SENSES[k - 1] !in Asked(k - 1);
    }
  }

  // ---------------------------------------------------------------- reverse visualisation

  /** The length of the leading run of non-whitespace. */
  function WordLength(s: string): (n: nat)
    ensures n <= |s| && (forall k :: 0 <= k < n ==> !IsWhitespace(s[k])) && (n < |s| ==> IsWhitespace(s[n]))
    decreases |s|
  {
    if s != [] && !IsWhitespace(s[0]) then 1 + WordLength(s[1..]) else 0
  }

  /** `text.split(/\s+/).filter(w => w.length > 0)`. */
  function Words(s: string): (r: seq<string>)
    ensures forall i :: 0 <= i < |r| ==> r[i] != [] && forall k :: 0 <= k < |r[i]| ==> !IsWhitespace(r[i][k])
    decreases |s|
  {
    if s == [] then []
    else if IsWhitespace(s[0]) then Words(s[1..])
    else
      var n := WordLength(s);
      [s[..n]] + Words(s[n..])
  }

  /** The leading word of `a + [c] + b`, for whitespace `c`, lies inside `a`. */
  lemma WordLengthBefore(a: string, c: char, b: string)
    requires IsWhitespace(c)
    ensures WordLength(a + [c] + b) == WordLength(a)
    decreases |a|
  {
    if a != [] && !IsWhitespace(a[0]) {
      assert (a + [c] + b)[1..] == a[1..] + [c] + b;
      WordLengthBefore(a[1..], c, b);
    } else if a == [] {
      assert (a + [c] + b)[0] == c;
    }
  }

  /** Whitespace separates words: the words of `a`, a space, then `b` are those of `a`
      followed by those of `b`. */
  lemma {:induction false} WordsAppend(a: string, c: char, b: string)
    requires IsWhitespace(c)
    ensures Words(a + [c] + b) == Words(a) + Words(b)
    decreases |a|
  {
    var s := a + [c] + b;
    if a == [] {
      assert s[1..] == b;
      assert Words(s) == Words(s[1..]);
    } else if IsWhitespace(a[0]) {
      assert s[1..] == a[1..] + [c] + b;
      WordsAppend(a[1..], c, b);
      assert Words(s) == Words(s[1..]) && Words(a) == Words(a[1..]);
    } else {
      WordStep(a, c, b);
      WordsAppend(a[WordLength(a)..], c, b);
    }
  }

  /** A text that begins with a word, followed by whitespace and more text: the word comes
      first in both. */
  lemma WordStep(a: string, c: char, b: string)
    requires IsWhitespace(c) && a != [] && !IsWhitespace(a[0])
    ensures var n := WordLength(a);
            0 < n && Words(a + [c] + b) == [a[..n]] + Words(a[n..] + [c] + b)
            && Words(a) == [a[..n]] + Words(a[n..])
  {
    var s := a + [c] + b;
    WordLengthBefore(a, c, b);
    var n := WordLength(a);
    assert s[..n] == a[..n];
    assert s[n..] == a[n..] + [c] + b;
  }

  /** Whitespace alone holds no word. */
  lemma {:induction false} NoWordsInWhitespace(s: string)
    requires forall k :: 0 <= k < |s| ==> IsWhitespace(s[k])
    ensures Words(s) == []
    decreases |s|
  {
    if s != [] {
      NoWordsInWhitespace(s[1..]);
    }
  }

  const VISUALIZATION_WORDS: nat := 50

  /** The Continue button stays disabled while fewer than fifty words are typed. */
  predicate VisualizationDisabled(text: string) {
    |Words(text)| < VISUALIZATION_WORDS
  }

  // ---------------------------------------------------------------- environmental reset

  const HERE: string := "i am here"

  /** `value.toLowerCase() === 'i am here'`. */
  predicate EnvironmentConfirmed(input: string) {
    Lower(input) == HERE
  }

  /** What the field shows. */
  function EnvironmentField(confirmed: bool): string {
    if confirmed then "I am here" else ""
  }

  /** The phrase is accepted in any letter case, and the field shows it back in a form that is
      itself accepted; an empty field is not confirmed. */
  lemma EnvironmentPhrase(input: string)
    requires |input| == |HERE| && forall k :: 0 <= k < |input| ==> LowerChar(input[k]) == HERE[k]
    ensures EnvironmentConfirmed(input)
    ensures EnvironmentConfirmed(EnvironmentField(true)) && !EnvironmentConfirmed(EnvironmentField(false))
  {
    assert Lower("I am here") == HERE by {
      assert Lower("I am here")[0] == 'i';
    }
  }

  /** One keystroke in the field as written: the field shows `EnvironmentField(confirmed)`,
      so the value the change handler sees is that text with the typed character added. */
  function KeystrokeAsWritten(confirmed: bool, c: char): bool {
    EnvironmentConfirmed(EnvironmentField(confirmed) + [c])
  }

  /** The flag after typing `cs` one character at a time into the field as written. */
  function TypedAsWritten(confirmed: bool, cs: string): (r: bool)
    ensures cs == [] ==> r == confirmed
    decreases |cs|
  {
    if cs == [] then confirmed else TypedAsWritten(KeystrokeAsWritten(confirmed, cs[0]), cs[1..])
  }

  /** A keystroke never confirms: the field shows either nothing or the whole phrase, and
      neither with one character added is the phrase. */
  lemma KeystrokeNeverConfirms(confirmed: bool, c: char)
    ensures !KeystrokeAsWritten(confirmed, c)
  {
    var v := EnvironmentField(confirmed) + [c];
    assert |Lower(v)| == |v| != |HERE|;
  }

  /** So typing the phrase, or anything else, character by character never confirms. */
  lemma {:induction false} TypingNeverConfirms(confirmed: bool, cs: string)
    requires cs != []
    ensures !TypedAsWritten(confirmed, cs)
    decreases |cs|
  {
    KeystrokeNeverConfirms(confirmed, cs[0]);
    if |cs| > 1 {
      TypingNeverConfirms(KeystrokeAsWritten(confirmed, cs[0]), cs[1..]);
    }
  }

  /** The field holding what was typed: a keystroke appends the character, and the flag is
      whether the text is the phrase. */
  function TypedCorrected(text: string, cs: string): (r: string)
    ensures r == text + cs
    decreases |cs|
  {
    if cs == [] then text
    else
      assert text + cs == (text + [cs[0]]) + cs[1..];
      TypedCorrected(text + [cs[0]], cs[1..])
  }

  /** With the field holding the typed text, typing the phrase one character at a time from
      an empty field confirms, and so does any letter case of it. */
  lemma TypingConfirms(phrase: string)
    requires |phrase| == |HERE| && forall k :: 0 <= k < |phrase| ==> LowerChar(phrase[k]) == HERE[k]
    ensures EnvironmentConfirmed(TypedCorrected("", phrase))
  {
    assert "" + phrase == phrase;
    EnvironmentPhrase(phrase);
  }

  // ---------------------------------------------------------------- the HALT check

  /** `prev.filter(h => h !== item)`. */
  function Without(list: seq<Halt>, item: Halt): (r: seq<Halt>)
    ensures item !in r
    ensures forall h :: h != item ==> (h in r <==> h in list)
    ensures |r| <= |list|
  {
    if list == [] then []
    else if list[0] == item then Without(list[1..], item)
    else [list[0]] + Without(list[1..], item)
  }

  /** The HALT toggle: remove the item if present, otherwise append it. */
  function ToggleHalt(list: seq<Halt>, item: Halt): seq<Halt> {
    if item in list then Without(list, item) else list + [item]
  }

  predicate NoDuplicates(list: seq<Halt>) {
    forall i, j :: 0 <= i < j < |list| ==> list[i] != list[j]
  }

  lemma {:induction false} WithoutAbsent(list: seq<Halt>, item: Halt)
    requires item !in list
    ensures Without(list, item) == list
  {
    if list != [] {
      WithoutAbsent(list[1..], item);
    }
  }

  lemma {:induction false} WithoutKeepsDistinct(list: seq<Halt>, item: Halt)
    requires NoDuplicates(list)
    ensures NoDuplicates(Without(list, item))
  {
    if list != [] {
      WithoutKeepsDistinct(list[1..], item);
      if list[0] != item {
        var r := Without(list[1..], item);
        assert list[0] !in list[1..];
        assert list[0] !in r;
      }
    }
  }

  /** Toggling flips the item's membership, leaves every other item's alone, keeps the list
      free of duplicates, and toggling back restores a list that lacked the item. */
  lemma ToggleHaltEffect(list: seq<Halt>, item: Halt)
    requires NoDuplicates(list)
    ensures var r := ToggleHalt(list, item);
            (item in r <==> item !in list)
            && (forall h :: h != item ==> (h in r <==> h in list))
            && NoDuplicates(r)
            && (item !in list ==> ToggleHalt(r, item) == list)
  {
    if item in list {
      WithoutKeepsDistinct(list, item);
    } else {
      var r := list + [item];
      assert item in r;
      WithoutAbsent(list, item);
      assert Without(r, item) == list by {
        WithoutAppend(list, item);
      }
    }
  }

  lemma {:induction false} WithoutAppend(list: seq<Halt>, item: Halt)
    requires item !in list
    ensures Without(list + [item], item) == list
  {
    if list == [] {
      assert [item][1..] == [];
    } else {
      assert (list + [item])[1..] == list[1..] + [item];
      WithoutAppend(list[1..], item);
    }
  }

  // ---------------------------------------------------------------- the log entry

  function HaltName(h: Halt): string {
    match h
    case Hungry => "Hungry"
    case Angry => "Angry"
    case Lonely => "Lonely"
    case Tired => "Tired"
    case Bored => "Bored"
  }

  function HaltNames(list: seq<Halt>): (r: seq<string>)
    ensures |r| == |list| && forall i :: 0 <= i < |list| ==> r[i] == HaltName(list[i])
  {
    seq(|list|, i requires 0 <= i < |list| => HaltName(list[i]))
  }

  /** The log form's fields. */
  datatype LogForm = LogForm(halt: seq<Halt>, intensity: int, location: Location, precursorEvent: string, outcome: Outcome)

  /** The intensity slider's range (`min={1} max={10}`). */
  const INTENSITY_MIN := 1
  const INTENSITY_MAX := 10
  const DEFAULT_LOG_FORM := LogForm([], 6, Home, "", Succeeded)

  /** The entry `handleLogSubmit` hands to `appendTriggerLog`. */
  function LogEntry(timestamp: int, form: LogForm, selected: Option<PanicMethod>): TriggerLog {
    var joined := Join(HaltNames(form.halt), ", ");
    TriggerLog(
      timestamp,
      form.intensity,
      if joined != "" then joined else "Unknown",
      match selected case Some(m) => MethodName(m) case None => "Unknown method",
      Some(form.precursorEvent),
      Some(form.halt),
      Some(form.location),
      Some(form.precursorEvent),
      Some(form.outcome),
      match selected case Some(m) => Some(MethodName(m)) case None => None)
  }

  lemma JoinNonEmpty(parts: seq<string>, sep: string)
    requires |parts| > 0 && parts[0] != ""
    ensures Join(parts, sep) != ""
  {
  }

  /** The entry's emotion is the HALT items joined by `, `, or `Unknown` when none is
      selected; what helped is the method, or `Unknown method`; the notes are the precursor
      text. */
  lemma LogEntryMeaning(timestamp: int, form: LogForm, selected: Option<PanicMethod>)
    ensures var e := LogEntry(timestamp, form, selected);
            (form.halt == [] ==> e.emotion == "Unknown")
            && (form.halt != [] ==> e.emotion == Join(HaltNames(form.halt), ", "))
            && (selected.None? ==> e.whatHelped == "Unknown method" && e.methodUsed.None?)
            && (selected.Some? ==> e.whatHelped == MethodName(selected.value) && e.methodUsed == Some(e.whatHelped))
            && e.notes == Some(form.precursorEvent) && e.precursorEvent == e.notes
            && e.halt == Some(form.halt) && e.intensity == form.intensity && e.timestamp == timestamp
  {
    if form.halt != [] {
      JoinNonEmpty(HaltNames(form.halt), ", ");
    }
  }

  // ---------------------------------------------------------------- the per-method state

  /** The states `resetMethodStates` resets, and the generated math problems. */
  datatype MethodState = MethodState(
    breathCount: nat,
    coldWaterCountdown: int,
    groundingAnswers: map<int, string>,
    mathProblems: seq<MathProblem>,
    mathAnswers: map<nat, string>,
    contractTime: int,
    surfingTaps: nat,
    surfingTime: int,
    repCount: nat,
    visualizationText: string,
    environmentConfirm: bool)

  /** `resetMethodStates()`: the counters and texts start over; the math problems stay. */
  function ResetMethodStates(m: MethodState, ex: Exercise): (r: MethodState)
    ensures r.mathProblems == m.mathProblems
    ensures r.breathCount == 0 && r.repCount == 0 && r.surfingTaps == 0
    ensures r.coldWaterCountdown == ex.coldWaterCountdownSeconds && r.contractTime == ex.contractDurationSeconds
    ensures r.surfingTime == ex.urgeSurfingDurationSeconds
    ensures r.groundingAnswers == map[] && r.mathAnswers == map[] && r.visualizationText == "" && !r.environmentConfirm
  {
    MethodState(0, ex.coldWaterCountdownSeconds, map[], m.mathProblems, map[], ex.contractDurationSeconds,
                0, ex.urgeSurfingDurationSeconds, 0, "", false)
  }

  /** The hold gate's state: the pressing flag, the start time, the progress and whether the
      16 ms sampler runs. */
  datatype Press = Press(isPressing: bool, start: Option<int>, progress: real, sampling: bool)

  /** Everything the component holds. */
  datatype PanicState = PanicState(
    step: Step,
    selectedMethod: Option<PanicMethod>,
    press: Press,
    methods: MethodState,
    log: LogForm,
    showReEngagement: bool,
    savedLogs: seq<TriggerLog>)

  /** The method states right after activation with `selected`. */
  function ActivatedMethods(m: MethodState, selected: Option<PanicMethod>, ex: Exercise): MethodState {
    if selected == Some(MathSabotage) then ResetMethodStates(m, ex).(mathProblems := MathProblems(ex))
    else ResetMethodStates(m, ex)
  }

  /** The method chosen by a draw `r` in `[0, 1)`: `PANIC_METHODS[floor(r * 10)]`. */
  function ChosenMethod(r: real): (m: PanicMethod)
    requires 0.0 <= r < 1.0
    ensures m in PANIC_METHODS
  {
    var i := (r * 10.0).Floor;
    assert 0 <= i < 10;
    PANIC_METHODS[i]
  }

  /** The Continue button is shown, or enabled, for the selected method. The sigh and the
      physical burst have none: their counting buttons complete the method. */
  predicate ContinueOffered(s: PanicState, ex: Exercise, toNumber: string -> Option<int>) {
    s.step == MethodStep && s.selectedMethod.Some? &&
    match s.selectedMethod.value
    case ColdWater => s.methods.coldWaterCountdown == 0
    case Grounding54321 => AllSensesAnswered(s.methods.groundingAnswers, ex)
    case MathSabotage => AllMathAnswered(s.methods.mathProblems, s.methods.mathAnswers, toNumber)
    case TenMinuteContract => s.methods.contractTime == 0
    case UrgeSurfing => s.methods.surfingTime == 0
    case ReverseVisualization => !VisualizationDisabled(s.methods.visualizationText)
    case IdentityFlashcard => true
    case EnvironmentalReset => s.methods.environmentConfirm
    case PhysiologicalSigh => false
    case PhysicalEnergy => false
  }

  /** `PanicFlow`, one instance per mounted component. */
  class PanicSession {
    const ex: Exercise
    var step: Step
    var selectedMethod: Option<PanicMethod>
    var press: Press
    var methods: MethodState
    var log: LogForm
    var showReEngagement: bool
    /** The entries handed to `appendTriggerLog`, oldest first. */
    var savedLogs: seq<TriggerLog>

    function State(): PanicState
      reads this
    {
      PanicState(step, selectedMethod, press, methods, log, showReEngagement, savedLogs)
    }

    /** The HALT list has no duplicates, the countdowns are not negative, the progress
        never exceeds 100, and the form's intensity and every saved entry's lie on the
        slider's scale of 1 to 10. */
    predicate Valid()
      reads this
    {
      NoDuplicates(log.halt)
      && methods.coldWaterCountdown >= 0 && methods.contractTime >= 0 && methods.surfingTime >= 0
      && press.progress <= 100.0
      && INTENSITY_MIN <= log.intensity <= INTENSITY_MAX
      && forall i :: 0 <= i < |savedLogs| ==> INTENSITY_MIN <= savedLogs[i].intensity <= INTENSITY_MAX
    }

    /** The first render's state. */
    constructor(ex: Exercise)
      ensures Valid() && this.ex == ex
      ensures State() == PanicState(Sos, None, Press(false, None, 0.0, false),
                                    MethodState(0, 30, map[], [], map[], 600, 0, 90, 0, "", false),
                                    DEFAULT_LOG_FORM, false, [])
    {
      this.ex := ex;
      step := Sos;
      selectedMethod := None;
      press := Press(false, None, 0.0, false);
      methods := MethodState(0, 30, map[], [], map[], 600, 0, 90, 0, "", false);
      log := DEFAULT_LOG_FORM;
      showReEngagement := false;
      savedLogs := [];
    }

    /** The effect run when `isOpen` becomes true, with `r` the `Math.random()` draw. */
    method Open(r: real)
      requires Valid() && 0.0 <= r < 1.0
      modifies this
      ensures Valid()
      ensures State() == old(State()).(step := Sos, selectedMethod := Some(ChosenMethod(r)),
                                       press := old(press).(isPressing := false, progress := 0.0),
                                       methods := ResetMethodStates(old(methods), ex), log := DEFAULT_LOG_FORM)
    {
      step := Sos;
      press := press.(isPressing := false, progress := 0.0);
      selectedMethod := Some(ChosenMethod(r));
      methods := ResetMethodStates(methods, ex);
      log := DEFAULT_LOG_FORM;
    }

    /** The effect run when `isOpen` becomes false. */
    method Closed()
      modifies this
      ensures State() == old(State()).(showReEngagement := false)
      ensures Valid() == old(Valid())
    {
      showReEngagement := false;
    }

    /** `handlePressStart` at time `now`: pressing, progress 0, the sampler started. */
    method PressStart(now: int)
      requires Valid()
      modifies this
      ensures Valid()
      ensures State() == old(State()).(press := Press(true, Some(now), 0.0, true))
    {
      press := Press(true, Some(now), 0.0, true);
    }

    /** `handlePressEnd`: the sampler stops, progress returns to 0, the step stays. */
    method PressEnd()
      requires Valid()
      modifies this
      ensures Valid()
      ensures State() == old(State()).(press := Press(false, None, 0.0, false))
    {
      press := Press(false, None, 0.0, false);
    }

    /** `initializeMethod()` for the given selection. */
    method InitializeMethod(selection: Option<PanicMethod>)
      requires Valid()
      modifies this
      ensures Valid()
      ensures selection == Some(MathSabotage) ==>
                State() == old(State()).(methods := old(methods).(mathProblems := MathProblems(ex)))
      ensures selection == Some(TenMinuteContract) ==>
                State() == old(State()).(methods := old(methods).(contractTime := ex.contractDurationSeconds))
      ensures selection == Some(UrgeSurfing) ==>
                State() == old(State()).(methods := old(methods).(surfingTime := ex.urgeSurfingDurationSeconds))
      ensures selection == Some(ColdWater) ==>
                State() == old(State()).(methods := old(methods).(coldWaterCountdown := ex.coldWaterCountdownSeconds))
      ensures selection !in {Some(MathSabotage), Some(TenMinuteContract), Some(UrgeSurfing), Some(ColdWater)} ==>
                State() == old(State())
    {
      if selection.None? {
        return;
      }
      match selection.value {
        case MathSabotage =>
          var problems := GenerateMathProblems(ex);
          methods := methods.(mathProblems := problems);
        case TenMinuteContract =>
          methods := methods.(contractTime := ex.contractDurationSeconds);
        case UrgeSurfing =>
          methods := methods.(surfingTime := ex.urgeSurfingDurationSeconds);
        case ColdWater =>
          methods := methods.(coldWaterCountdown := ex.coldWaterCountdownSeconds);
        case _ =>
      }
    }

    /** `activatePanicButton()`: the method step, fresh method states, then the selected
        method's initialisation. */
    method Activate()
      requires Valid()
      modifies this
      ensures Valid()
      ensures State() == old(State()).(step := MethodStep, methods := ActivatedMethods(old(methods), old(selectedMethod), ex))
    {
      step := MethodStep;
      methods := ResetMethodStates(methods, ex);
      InitializeMethod(selectedMethod);
    }

    /** `activatePanicButton()` as the memoised press handler reaches it: the closure was
        made on the first render, where no method is selected yet, so its
        `initializeMethod` returns at once. */
    method ActivateAsWritten()
      requires Valid()
      modifies this
      ensures Valid()
      ensures State() == old(State()).(step := MethodStep, methods := ResetMethodStates(old(methods), ex))
    {
      step := MethodStep;
      methods := ResetMethodStates(methods, ex);
      InitializeMethod(None);
    }

    /** One run of the 16 ms sampler at time `now`: it updates the progress and, once 2000 ms
        have passed since the press began, stops itself and activates the method. */
    method PressSample(now: int)
      requires Valid()
      modifies this
      ensures Valid()
      ensures !old(press.sampling) || old(press.start).None? ==> State() == old(State())
      ensures old(press.sampling) && old(press.start).Some? ==>
                var elapsed := now - old(press.start).value;
                var done := elapsed >= HOLD_MS;
                State() == old(State()).(
                  press := old(press).(progress := PressProgress(elapsed), sampling := !done),
                  step := if done then MethodStep else old(step),
                  methods := if done then ActivatedMethods(old(methods), old(selectedMethod), ex) else old(methods))
    {
      if !press.sampling || press.start.None? {
        return;
      }
      var elapsed := now - press.start.value;
      var progress := PressProgress(elapsed);
      press := press.(progress := progress);
      if elapsed >= HOLD_MS {
        press := press.(sampling := false);
        Activate();
      }
    }

    /** The sampler as written, activating through the first render's closure. */
    method PressSampleAsWritten(now: int)
      requires Valid()
      modifies this
      ensures Valid()
      ensures !old(press.sampling) || old(press.start).None? ==> State() == old(State())
      ensures old(press.sampling) && old(press.start).Some? ==>
                var elapsed := now - old(press.start).value;
                var done := elapsed >= HOLD_MS;
                State() == old(State()).(
                  press := old(press).(progress := PressProgress(elapsed), sampling := !done),
                  step := if done then MethodStep else old(step),
                  methods := if done then ResetMethodStates(old(methods), ex) else old(methods))
    {
      if !press.sampling || press.start.None? {
        return;
      }
      var elapsed := now - press.start.value;
      press := press.(progress := PressProgress(elapsed));
      if elapsed >= HOLD_MS {
        press := press.(sampling := false);
        ActivateAsWritten();
      }
    }

    /** One second of the contract, surfing and cold-water intervals: each runs only while
        the method step shows its own method. */
    method SecondTick()
      requires Valid()
      modifies this
      ensures Valid()
      ensures var on := old(step) == MethodStep;
              State() == old(State()).(methods := old(methods).(
                contractTime := if on && old(selectedMethod) == Some(TenMinuteContract) then Tick(old(methods.contractTime)) else old(methods.contractTime),
                surfingTime := if on && old(selectedMethod) == Some(UrgeSurfing) then Tick(old(methods.surfingTime)) else old(methods.surfingTime),
                coldWaterCountdown := if on && old(selectedMethod) == Some(ColdWater) then Tick(old(methods.coldWaterCountdown)) else old(methods.coldWaterCountdown)))
    {
      if step == MethodStep && selectedMethod == Some(TenMinuteContract) {
        methods := methods.(contractTime := Tick(methods.contractTime));
      }
      if step == MethodStep && selectedMethod == Some(UrgeSurfing) {
        methods := methods.(surfingTime := Tick(methods.surfingTime));
      }
      if step == MethodStep && selectedMethod == Some(ColdWater) {
        methods := methods.(coldWaterCountdown := Tick(methods.coldWaterCountdown));
      }
    }

    /** `handleMethodComplete()` through a Continue button, which is only there when the
        method offers it. */
    method Continue(toNumber: string -> Option<int>)
      requires Valid() && ContinueOffered(State(), ex, toNumber)
      modifies this
      ensures Valid()
      ensures State() == old(State()).(step := LogStep)
    {
      step := LogStep;
    }

    /** A click on the breathing button: one more breath; the click made at
        `TOTAL_BREATHS - 1` or later completes the method. */
    method BreathClick()
      requires Valid() && step == MethodStep && selectedMethod == Some(PhysiologicalSigh)
      modifies this
      ensures Valid()
      ensures State() == old(State()).(methods := old(methods).(breathCount := old(methods.breathCount) + 1),
                                       step := if old(methods.breathCount) + 1 >= ex.totalBreaths then LogStep else MethodStep)
    {
      var before := methods.breathCount;
      methods := methods.(breathCount := before + 1);
      if before + 1 >= ex.totalBreaths {
        step := LogStep;
      }
    }

    /** A click on the rep counter: the click that makes the count reach 20 completes. */
    method RepClick()
      requires Valid() && step == MethodStep && selectedMethod == Some(PhysicalEnergy)
      modifies this
      ensures Valid()
      ensures State() == old(State()).(methods := old(methods).(repCount := old(methods.repCount) + 1),
                                       step := if old(methods.repCount) + 1 >= 20 then LogStep else MethodStep)
    {
      var newCount := methods.repCount + 1;
      methods := methods.(repCount := newCount);
      if newCount >= 20 {
        step := LogStep;
      }
    }

    /** A tap while surfing: the counter only. */
    method SurfingTap()
      requires Valid()
      modifies this
      ensures Valid()
      ensures State() == old(State()).(methods := old(methods).(surfingTaps := old(methods.surfingTaps) + 1))
    {
      methods := methods.(surfingTaps := methods.surfingTaps + 1);
    }

    /** Typing into the grounding field for the current sense. */
    method GroundingInput(text: string)
      requires Valid()
      modifies this
      ensures Valid()
      ensures State() == old(State()).(methods := old(methods).(groundingAnswers := GroundingTyped(old(methods.groundingAnswers), text)))
    {
      methods := methods.(groundingAnswers := GroundingTyped(methods.groundingAnswers, text));
    }

    /** Typing into the math field, which is shown only while a problem is open. */
    method MathInput(text: string, toNumber: string -> Option<int>)
      requires Valid() && |methods.mathProblems| > 0 && !AllMathAnswered(methods.mathProblems, methods.mathAnswers, toNumber)
      modifies this
      ensures Valid()
      ensures var i := CurrentMathIndex(old(methods.mathProblems), old(methods.mathAnswers), toNumber);
              i >= 0 && State() == old(State()).(methods := old(methods).(mathAnswers := old(methods.mathAnswers)[i as nat := text]))
    {
      var i := CurrentMathIndex(methods.mathProblems, methods.mathAnswers, toNumber);
      methods := methods.(mathAnswers := methods.mathAnswers[i as nat := text]);
    }

    /** Typing the visualisation text. */
    method VisualizationInput(text: string)
      requires Valid()
      modifies this
      ensures Valid()
      ensures State() == old(State()).(methods := old(methods).(visualizationText := text))
    {
      methods := methods.(visualizationText := text);
    }

    /** Typing into the environment field. */
    method EnvironmentInput(text: string)
      requires Valid()
      modifies this
      ensures Valid()
      ensures State() == old(State()).(methods := old(methods).(environmentConfirm := EnvironmentConfirmed(text)))
    {
      methods := methods.(environmentConfirm := EnvironmentConfirmed(text));
    }

    /** A HALT button. */
    method ToggleHaltItem(item: Halt)
      requires Valid()
      modifies this
      ensures Valid()
      ensures State() == old(State()).(log := old(log).(halt := ToggleHalt(old(log.halt), item)))
    {
      ToggleHaltEffect(log.halt, item);
      log := log.(halt := ToggleHalt(log.halt, item));
    }

    /** The intensity slider, the location select, the precursor field and the outcome
        buttons. */
    method EditLog(intensity: int, location: Location, precursorEvent: string, outcome: Outcome)
      requires Valid() && INTENSITY_MIN <= intensity <= INTENSITY_MAX
      modifies this
      ensures Valid()
      ensures State() == old(State()).(log := old(log).(intensity := intensity, location := location,
                                                        precursorEvent := precursorEvent, outcome := outcome))
    {
      log := log.(intensity := intensity, location := location, precursorEvent := precursorEvent, outcome := outcome);
    }

    /** `handleLogSubmit()` at time `now`: exactly one entry is handed to `appendTriggerLog`,
        and the flow moves to success whether or not that call throws. */
    method LogSubmit(now: int)
      requires Valid()
      modifies this
      ensures Valid()
      ensures State() == old(State()).(savedLogs := old(savedLogs) + [LogEntry(now, old(log), old(selectedMethod))],
                                       step := SuccessStep)
      ensures INTENSITY_MIN <= savedLogs[|savedLogs| - 1].intensity <= INTENSITY_MAX
    {
      savedLogs := savedLogs + [LogEntry(now, log, selectedMethod)];
      step := SuccessStep;
    }

    /** `handleSkipLog()`: success, with nothing logged. */
    method SkipLog()
      requires Valid()
      modifies this
      ensures Valid()
      ensures State() == old(State()).(step := SuccessStep)
    {
      step := SuccessStep;
    }

    /** `handleSuccessClose()`: back to `sos` with fresh method states; the re-engagement
        prompt is requested exactly when the user id is truthy (present and non-empty). */
    method SuccessClose(userId: Option<string>)
      requires Valid()
      modifies this
      ensures Valid()
      ensures State() == old(State()).(step := Sos, methods := ResetMethodStates(old(methods), ex),
                                       showReEngagement := if TruthyText(userId) then true else old(showReEngagement))
    {
      step := Sos;
      methods := ResetMethodStates(methods, ex);
      if TruthyText(userId) {
        showReEngagement := true;
      }
    }
  }

  /** Opening on a draw that picks math, then holding for 2000 ms, as the code is written:
      no problem is generated, so the math method never offers Continue. */
  method MathFlowAsWritten(ex: Exercise, r: real, t: int) returns (s: PanicSession)
    requires 0.0 <= r < 1.0 && (r * 10.0).Floor == 3
    ensures s.step == MethodStep && s.selectedMethod == Some(MathSabotage)
    ensures s.methods.mathProblems == []
    ensures forall toNumber: string -> Option<int> :: !ContinueOffered(s.State(), ex, toNumber)
  {
    s := new PanicSession(ex);
    s.Open(r);
    s.PressStart(t);
    s.PressSampleAsWritten(t + HOLD_MS);
  }

  /** The same, with activation reading the selected method: the generated problems are
      there, and typing their answers makes math offer Continue. */
  method MathFlow(ex: Exercise, r: real, t: int, toNumber: string -> Option<int>) returns (s: PanicSession)
    requires 0.0 <= r < 1.0 && (r * 10.0).Floor == 3
    requires ex.mathProblemsCount > 0 && forall n: int :: toNumber(IntText(n)) == Some(n)
    ensures s.step == MethodStep && s.selectedMethod == Some(MathSabotage)
    ensures s.methods.mathProblems == MathProblems(ex)
    ensures AllMathAnswered(s.methods.mathProblems, TypedAnswers(s.methods.mathProblems), toNumber)
  {
    s := new PanicSession(ex);
    s.Open(r);
    s.PressStart(t);
    s.PressSample(t + HOLD_MS);
    MathCompletable(ex, toNumber);
  }
}
