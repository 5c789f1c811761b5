/**
 * The JavaScript string primitives the application leans on (`trim`, `includes`,
 * `indexOf`, `startsWith`, `replace` with a string pattern, `split` on one character,
 * `join`, `toLowerCase`, `String(n)`, `padStart`), written over Dafny strings.
 *
 * Strings are sequences of Unicode scalar values; lengths therefore agree with
 * JavaScript's UTF-16 `length` for every character of the Basic Multilingual Plane.
 */
module JsText {
  import opened Wrappers

  /** A string that may be absent is truthy when present and non-empty. */
  predicate TruthyText(s: Option<string>) {
    s.Some? && s.value != ""
  }

  /** The characters `String.prototype.trim` removes and the regular-expression class `\s`
      matches: WhiteSpace (TAB, VT, FF, ZWNBSP and the space separators) and LineTerminator. */
  predicate IsWhitespace(c: char) {
    c == '\t' || c == '\n' || c == '\U{000B}' || c == '\U{000C}' || c == '\r' || c == ' '
    || c == '\U{00A0}' || c == '\U{1680}' || ('\U{2000}' <= c <= '\U{200A}')
    || c == '\U{2028}' || c == '\U{2029}' || c == '\U{202F}' || c == '\U{205F}'
    || c == '\U{3000}' || c == '\U{FEFF}'
  }

  /** `s.trimStart()`: the suffix of `s` that remains after its leading whitespace. */
  function TrimStart(s: string): (r: string)
    ensures |r| <= |s| && r == s[|s| - |r|..]
    ensures forall i :: 0 <= i < |s| - |r| ==> IsWhitespace(s[i])
    ensures r != [] ==> !IsWhitespace(r[0])
    decreases |s|
  {
    if s != [] && IsWhitespace(s[0]) then TrimStart(s[1..]) else s
  }

  /** `s.trimEnd()`: the prefix of `s` that remains after its trailing whitespace. */
  function TrimEnd(s: string): (r: string)
    ensures |r| <= |s| && r == s[..|r|]
    ensures forall i :: |r| <= i < |s| ==> IsWhitespace(s[i])
    ensures r != [] ==> !IsWhitespace(r[|r| - 1])
    decreases |s|
  {
    if s != [] && IsWhitespace(s[|s| - 1]) then TrimEnd(s[..|s| - 1]) else s
  }

  /** `s.trim()`. */
  function Trim(s: string): string {
    TrimEnd(TrimStart(s))
  }

  /** A string is blank when `trim()` leaves nothing of it. */
  predicate IsBlank(s: string) {
    Trim(s) == ""
  }

  /** Trimming yields a contiguous piece of the input with no whitespace at either end. */
  lemma TrimShape(s: string)
    ensures exists i, j :: 0 <= i <= j <= |s| && Trim(s) == s[i..j]
    ensures Trim(s) != [] ==> !IsWhitespace(Trim(s)[0]) && !IsWhitespace(Trim(s)[|Trim(s)| - 1])
  {
    var t := TrimStart(s);
    var i := |s| - |t|;
    var r := TrimEnd(t);
    assert t[..|r|] == s[i..i + |r|];
  }

  /** A string is blank exactly when every character of it is whitespace. */
  lemma BlankIffAllWhitespace(s: string)
    ensures IsBlank(s) <==> forall i :: 0 <= i < |s| ==> IsWhitespace(s[i])
  {
    var t := TrimStart(s);
    if t != [] {
      assert !IsWhitespace(t[0]);
      assert TrimEnd(t) != [];
      assert !IsWhitespace(s[|s| - |t|]);
    }
  }

  /** Trimming twice is trimming once. */
  lemma TrimIdempotent(s: string)
    ensures Trim(Trim(s)) == Trim(s)
  {
    var r := Trim(s);
    if r != [] {
      assert TrimStart(r) == r;
    }
  }

  /** `c.toLowerCase()` on the ASCII letters; every other character is unchanged. */
  function LowerChar(c: char): char {
    if 'A' <= c <= 'Z' then (c as int + 32) as char else c
  }

  /** `s.toLowerCase()`, folding ASCII letters only. */
  function Lower(s: string): (r: string)
    ensures |r| == |s|
    ensures forall i :: 0 <= i < |s| ==> r[i] == LowerChar(s[i])
  {
    seq(|s|, i requires 0 <= i < |s| => LowerChar(s[i]))
  }

  /** `s.startsWith(p)`. */
  predicate StartsWith(s: string, p: string) {
    p <= s
  }

  /** `s.indexOf(sub)`, with `None` for JavaScript's -1: the first position where `sub` occurs. */
  function IndexOf(s: string, sub: string): (r: Option<nat>)
    ensures r.Some? ==> r.value + |sub| <= |s| && sub <= s[r.value..]
    ensures r.Some? ==> forall j :: 0 <= j < r.value ==> !(sub <= s[j..])
    ensures r.None? ==> forall j :: 0 <= j <= |s| ==> !(sub <= s[j..])
    decreases |s|
  {
    if sub <= s then Some(0)
    else if s == [] then None
    else
      match IndexOf(s[1..], sub)
      case Some(k) =>
        assert forall j :: 1 <= j <= |s| ==> s[j..] == s[1..][j - 1..];
        Some(k + 1)
      case None =>
        assert forall j :: 1 <= j <= |s| ==> s[j..] == s[1..][j - 1..];
        None
  }

  /** `s.includes(sub)`: `sub` is a prefix of `s` or of one of its suffixes. */
  predicate Contains(s: string, sub: string)
    decreases |s|
  {
    sub <= s || (s != [] && Contains(s[1..], sub))
  }

  /** `includes` holds exactly when `sub` is a factor of `s`. */
  lemma {:induction false} ContainsIff(s: string, sub: string)
    ensures Contains(s, sub) <==> exists j :: 0 <= j <= |s| && sub <= s[j..]
    decreases |s|
  {
    if s != [] {
      ContainsIff(s[1..], sub);
      if Contains(s[1..], sub) {
        var j :| 0 <= j <= |s[1..]| && sub <= s[1..][j..];
        assert s[1..][j..] == s[j + 1..];
      }
      if exists j :: 0 <= j <= |s| && sub <= s[j..] {
        var j :| 0 <= j <= |s| && sub <= s[j..];
        if j > 0 {
          assert s[1..][j - 1..] == s[j..];
        }
      }
    }
  }

  /** `includes` agrees with `indexOf` finding a position. */
  lemma ContainsIndexOf(s: string, sub: string)
    ensures Contains(s, sub) <==> IndexOf(s, sub).Some?
  {
    ContainsIff(s, sub);
    if Contains(s, sub) {
      var j :| 0 <= j <= |s| && sub <= s[j..];
    }
  }

  /** A factor at a known position witnesses `includes`. */
  lemma ContainsAt(s: string, sub: string, j: nat)
    requires j <= |s| && sub <= s[j..]
    ensures Contains(s, sub)
  {
    ContainsIff(s, sub);
  }

  /** `includes` of a one-character string is membership. */
  lemma ContainsCharIff(s: string, c: char)
    ensures Contains(s, [c]) <==> c in s
  {
    if c in s {
      var i :| 0 <= i < |s| && s[i] == c;
      assert [c] <= s[i..];
      ContainsAt(s, [c], i);
    }
    if Contains(s, [c]) {
      ContainsIff(s, [c]);
      var j :| 0 <= j <= |s| && [c] <= s[j..];
      assert s[j] == c;
    }
  }

  /** `s` up to (not including) its first `c`, all of `s` when there is none. */
  function Before(s: string, c: char): (r: string)
    ensures r <= s && c !in r
    ensures |r| < |s| ==> s[|r|] == c
    decreases |s|
  {
    if s == [] || s[0] == c then [] else [s[0]] + Before(s[1..], c)
  }

  /** The first `c` of a string that has one lies inside it. */
  lemma BeforeShorter(s: string, c: char)
    requires c in s
    ensures |Before(s, c)| < |s|
  {
    var i :| 0 <= i < |s| && s[i] == c;
    assert c !in Before(s, c)[..];
  }

  lemma {:induction false} BeforeAll(s: string, c: char)
    requires c !in s
    ensures Before(s, c) == s
    decreases |s|
  {
    if s != [] {
      BeforeAll(s[1..], c);
    }
  }

  lemma {:induction false} BeforePrefix(s: string, t: string, c: char)
    requires c !in s
    ensures Before(s + t, c) == s + Before(t, c)
    decreases |s|
  {
    if s != [] {
      assert s[0] != c;
      assert (s + t)[0] == s[0];
      assert (s + t)[1..] == s[1..] + t;
      BeforePrefix(s[1..], t, c);
      assert s == [s[0]] + s[1..];
    } else {
      assert s + t == t;
    }
  }

  /** `s.replace(from, to)` with a string pattern: only the first occurrence is replaced. */
  function ReplaceFirst(s: string, from: string, to: string): (r: string)
    ensures IndexOf(s, from).None? ==> r == s
    ensures IndexOf(s, from).Some? ==> |r| == |s| - |from| + |to|
  {
    match IndexOf(s, from)
    case None => s
    case Some(i) => s[..i] + to + s[i + |from|..]
  }

  /** `s.split(sep)` for a one-character separator: the pieces between separators. */
  function Split(s: string, sep: char): (r: seq<string>)
    ensures |r| >= 1
    ensures forall k :: 0 <= k < |r| ==> sep !in r[k]
    decreases |s|
  {
    if s == [] then [""]
    else if s[0] == sep then [""] + Split(s[1..], sep)
    else
      var rest := Split(s[1..], sep);
      [[s[0]] + rest[0]] + rest[1..]
  }

  /** `parts.join(sep)`. */
  function Join(parts: seq<string>, sep: string): (r: string)
    decreases |parts|
  {
    if |parts| == 0 then ""
    else if |parts| == 1 then parts[0]
    else parts[0] + sep + Join(parts[1..], sep)
  }

  /** Gluing the pieces of a split back together with the separator gives the input back. */
  lemma {:induction false} JoinSplit(s: string, sep: char)
    ensures Join(Split(s, sep), [sep]) == s
    decreases |s|
  {
    if s == [] {
    } else if s[0] == sep {
      JoinSplit(s[1..], sep);
      var rest := Split(s[1..], sep);
      assert Split(s, sep) == [""] + rest;
      if |rest| == 1 {
        assert Join(Split(s, sep), [sep]) == "" + [sep] + rest[0];
      } else {
        assert Join(Split(s, sep), [sep]) == "" + [sep] + Join(rest, [sep]);
      }
    } else {
      JoinSplit(s[1..], sep);
      var rest := Split(s[1..], sep);
      var parts := Split(s, sep);
      assert parts == [[s[0]] + rest[0]] + rest[1..];
      if |rest| == 1 {
        assert Join(parts, [sep]) == [s[0]] + rest[0];
      } else {
        assert parts[1..] == rest[1..];
        assert Join(rest, [sep]) == rest[0] + [sep] + Join(rest[1..], [sep]);
        assert Join(parts, [sep]) == [s[0]] + rest[0] + [sep] + Join(rest[1..], [sep]);
      }
    }
  }

  /** The first piece of a split is the text before the first separator (all of `s` when
      there is none). */
  lemma {:induction false} SplitHead(s: string, sep: char)
    ensures sep !in s ==> Split(s, sep) == [s]
    ensures sep in s ==> exists i :: 0 <= i < |s| && s[i] == sep && sep !in s[..i] && Split(s, sep)[0] == s[..i]
    decreases |s|
  {
    if s == [] {
    } else if s[0] == sep {
      assert s[..0] == "";
    } else {
      SplitHead(s[1..], sep);
      if sep in s[1..] {
        var i :| 0 <= i < |s[1..]| && s[1..][i] == sep && sep !in s[1..][..i] && Split(s[1..], sep)[0] == s[1..][..i];
        PrefixCons(s, i);
        assert s[i + 1] == sep && sep !in s[..i + 1];
      } else {
        assert s == [s[0]] + s[1..];
      }
    }
  }

  lemma PrefixCons<T>(s: seq<T>, i: nat)
    requires i < |s|
    ensures s[..i + 1] == [s[0]] + s[1..][..i]
  {
    forall k | 0 <= k < i + 1
      ensures s[..i + 1][k] == ([s[0]] + s[1..][..i])[k]
    {
      if k > 0 {
        assert s[1..][..i][k - 1] == s[k];
      }
    }
  }

  /** The first two pieces of a split, in terms of `Before`. */
  lemma {:induction false} SplitFirstPiece(s: string, c: char)
    ensures Split(s, c)[0] == Before(s, c)
    ensures |Before(s, c)| < |s| ==> |Split(s, c)| > 1 && Split(s, c)[1] == Before(s[|Before(s, c)| + 1..], c)
    decreases |s|
  {
    if s != [] && s[0] != c {
      SplitFirstPiece(s[1..], c);
      var rest := Split(s[1..], c);
      assert Split(s, c) == [[s[0]] + rest[0]] + rest[1..];
      assert |Before(s, c)| == 1 + |Before(s[1..], c)|;
      if |Before(s, c)| < |s| {
        assert s[1..][|Before(s[1..], c)| + 1..] == s[|Before(s, c)| + 1..];
      }
    } else if s != [] {
      SplitFirstPiece(s[1..], c);
      assert Split(s, c) == [""] + Split(s[1..], c);
      assert s[|Before(s, c)| + 1..] == s[1..];
    }
  }

  /** The decimal digit character for `d`. */
  function DigitChar(d: nat): char
    requires d < 10
  {
    ('0' as int + d) as char
  }

  predicate IsDigit(c: char) {
    '0' <= c <= '9'
  }

  /** `String(n)` for a non-negative integer: its shortest decimal numeral. */
  function NatToDecimal(n: nat): (r: string)
    ensures |r| >= 1 && forall i :: 0 <= i < |r| ==> IsDigit(r[i])
    ensures |r| > 1 ==> r[0] != '0'
    decreases n
  {
    if n < 10 then [DigitChar(n)] else NatToDecimal(n / 10) + [DigitChar(n % 10)]
  }

  /** The value of a numeral made of decimal digits. */
  function DecimalValue(s: string): nat
    requires forall i :: 0 <= i < |s| ==> IsDigit(s[i])
    decreases |s|
  {
    if s == [] then 0
    else
      assert IsDigit(s[|s| - 1]);
      DecimalValue(s[..|s| - 1]) * 10 + (s[|s| - 1] as int - '0' as int)
  }

  /** Reading back the numeral `String(n)` gives `n`. */
  lemma {:induction false} DecimalRoundTrip(n: nat)
    ensures DecimalValue(NatToDecimal(n)) == n
    decreases n
  {
    if n >= 10 {
      DecimalRoundTrip(n / 10);
      var r := NatToDecimal(n);
      assert r[..|r| - 1] == NatToDecimal(n / 10);
    }
  }

  /** Leading zeros do not change the value of a numeral. */
  lemma {:induction false} DecimalLeadingZeros(z: nat, s: string)
    requires forall i :: 0 <= i < |s| ==> IsDigit(s[i])
    ensures var p := seq(z, _ => '0') + s;
            (forall i :: 0 <= i < |p| ==> IsDigit(p[i])) && DecimalValue(p) == DecimalValue(s)
    decreases |s|, z
  {
    var p := seq(z, _ => '0') + s;
    if s == [] {
      if z > 0 {
        DecimalLeadingZeros(z - 1, s);
        assert p[..|p| - 1] == seq(z - 1, _ => '0') + s;
      }
    } else {
      DecimalLeadingZeros(z, s[..|s| - 1]);
      assert p[..|p| - 1] == seq(z, _ => '0') + s[..|s| - 1];
    }
  }

  /** `s.padStart(width, c)`. */
  function PadStart(s: string, width: nat, c: char): (r: string)
    ensures |r| == if |s| >= width then |s| else width
    ensures r == seq(|r| - |s|, _ => c) + s
  {
    if |s| >= width then s else seq(width - |s|, _ => c) + s
  }
}
