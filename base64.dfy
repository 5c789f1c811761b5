/**
 * The browser's `btoa` and `atob`: base64 with the alphabet and `=` padding of section 4
 * of RFC 4648, over JavaScript strings seen as sequences of UTF-16 code units.
 *
 * `btoa` refuses (throws) a string holding a code unit above 0xFF; `atob` is the
 * "forgiving" decoder of the web platform: it drops ASCII whitespace, accepts the input
 * with or without its final padding and ignores the unused low bits of the last sextet.
 */
module Base64 {
  import opened Wrappers

  /** One element of a JavaScript string: a UTF-16 code unit, what `charCodeAt` returns. */
  type Unit = x: int | 0 <= x < 0x1_0000

  type Byte = x: int | 0 <= x < 256
  type Sextet = x: int | 0 <= x < 64

  const PAD: Unit := 0x3D  // '='

  /** The character of the RFC 4648 alphabet that encodes `v`. */
  function SextetChar(v: Sextet): (c: Unit)
    ensures c != PAD
  {
    if v < 26 then 0x41 + v            // 'A'..'Z'
    else if v < 52 then 0x61 + v - 26  // 'a'..'z'
    else if v < 62 then 0x30 + v - 52  // '0'..'9'
    else if v == 62 then 0x2B          // '+'
    else 0x2F                          // '/'
  }

  /** The value of an alphabet character, `None` for any other code unit. */
  function SextetOf(c: Unit): (r: Option<Sextet>)
    ensures r.Some? ==> SextetChar(r.value) == c
  {
    if 0x41 <= c <= 0x5A then Some(c - 0x41)
    else if 0x61 <= c <= 0x7A then Some(c - 0x61 + 26)
    else if 0x30 <= c <= 0x39 then Some(c - 0x30 + 52)
    else if c == 0x2B then Some(62)
    else if c == 0x2F then Some(63)
    else None
  }

  /** Decoding an alphabet character recovers its value. */
  lemma SextetRoundTrip(v: Sextet)
    ensures SextetOf(SextetChar(v)) == Some(v)
  {
  }

  /** The sextets of `b`, three bytes to four sextets, the last partial group zero-filled
      (RFC 4648 section 4), without padding. */
  function Sextets(b: seq<Byte>): (r: seq<Sextet>)
    ensures |r| == 4 * (|b| / 3) + (if |b| % 3 == 0 then 0 else |b| % 3 + 1)
    decreases |b|
  {
    if |b| == 0 then []
    else if |b| == 1 then [b[0] / 4, (b[0] % 4) * 16]
    else if |b| == 2 then [b[0] / 4, (b[0] % 4) * 16 + b[1] / 16, (b[1] % 16) * 4]
    else [b[0] / 4, (b[0] % 4) * 16 + b[1] / 16, (b[1] % 16) * 4 + b[2] / 64, b[2] % 64]
         + Sextets(b[3..])
  }

  /** The `=` characters that complete the last group to four characters. */
  function Padding(n: nat): seq<Unit> {
    if n % 3 == 1 then [PAD, PAD] else if n % 3 == 2 then [PAD] else []
  }

  function Chars(sx: seq<Sextet>): (r: seq<Unit>)
    ensures |r| == |sx| && forall i :: 0 <= i < |sx| ==> r[i] == SextetChar(sx[i])
  {
    seq(|sx|, i requires 0 <= i < |sx| => SextetChar(sx[i]))
  }

  /** The base64 text of a byte string. */
  function Encode(b: seq<Byte>): seq<Unit> {
    Chars(Sextets(b)) + Padding(|b|)
  }

  /** The Latin-1 reading of a JavaScript string, `None` when some code unit exceeds 0xFF. */
  function Latin1(s: seq<Unit>): (r: Option<seq<Byte>>)
    ensures r.Some? <==> forall i :: 0 <= i < |s| ==> s[i] < 256
    ensures r.Some? ==> |r.value| == |s| && forall i :: 0 <= i < |s| ==> r.value[i] == s[i]
  {
    if forall i :: 0 <= i < |s| ==> s[i] < 256
    then Some(seq(|s|, i requires 0 <= i < |s| => s[i] as Byte))
    else None
  }

  /** The string whose code units are the given bytes. */
  function FromBytes(b: seq<Byte>): (r: seq<Unit>)
    ensures |r| == |b| && forall i :: 0 <= i < |b| ==> r[i] == b[i]
  {
    seq(|b|, i requires 0 <= i < |b| => b[i] as Unit)
  }

  /** `btoa(s)`: `None` where the browser throws InvalidCharacterError. */
  function Btoa(s: seq<Unit>): (r: Option<seq<Unit>>)
    ensures r.Some? <==> forall i :: 0 <= i < |s| ==> s[i] < 256
  {
    match Latin1(s)
    case None => None
    case Some(b) => Some(Encode(b))
  }

  /** The ASCII whitespace the forgiving decoder discards: TAB, LF, FF, CR, SPACE. */
  predicate IsAsciiWhitespace(c: Unit) {
    c == 0x09 || c == 0x0A || c == 0x0C || c == 0x0D || c == 0x20
  }

  function StripWhitespace(s: seq<Unit>): (r: seq<Unit>)
    ensures forall i :: 0 <= i < |r| ==> !IsAsciiWhitespace(r[i])
    decreases |s|
  {
    if s == [] then []
    else if IsAsciiWhitespace(s[0]) then StripWhitespace(s[1..])
    else [s[0]] + StripWhitespace(s[1..])
  }

  /** When the length is a multiple of four, one or two trailing `=` are dropped. */
  function DropPadding(s: seq<Unit>): seq<Unit> {
    if |s| % 4 != 0 then s
    else if |s| >= 2 && s[|s| - 1] == PAD && s[|s| - 2] == PAD then s[..|s| - 2]
    else if |s| >= 1 && s[|s| - 1] == PAD then s[..|s| - 1]
    else s
  }

  /** The sextet values of a string of alphabet characters, `None` if any other occurs. */
  function SextetsOf(s: seq<Unit>): (r: Option<seq<Sextet>>)
    ensures r.Some? ==> |r.value| == |s|
    decreases |s|
  {
    if s == [] then Some([])
    else
      match SextetOf(s[0])
      case None => None
      case Some(v) =>
        match SextetsOf(s[1..])
        case None => None
        case Some(rest) => Some([v] + rest)
  }

  /** Bytes of a sequence of sextets; a final group of two or three sextets gives one or two
      bytes and its unused low bits are dropped. */
  function Decode(sx: seq<Sextet>): (r: seq<Byte>)
    requires |sx| % 4 != 1
    decreases |sx|
  {
    if |sx| == 0 then []
    else
      var s0: int, s1: int := sx[0], sx[1];
      if |sx| == 2 then [s0 * 4 + s1 / 16]
      else
        var s2: int := sx[2];
        if |sx| == 3 then [s0 * 4 + s1 / 16, (s1 % 16) * 16 + s2 / 4]
        else [s0 * 4 + s1 / 16, (s1 % 16) * 16 + s2 / 4, (s2 % 4) * 64 + sx[3]] + Decode(sx[4..])
  }

  /** `atob(s)`: `None` where the browser throws InvalidCharacterError. */
  function Atob(s: seq<Unit>): Option<seq<Unit>> {
    var data := DropPadding(StripWhitespace(s));
    if |data| % 4 == 1 then None
    else
      match SextetsOf(data)
      case None => None
      case Some(sx) => Some(FromBytes(Decode(sx)))
  }

  /** Decoding the sextets of a byte string gives the bytes back. */
  lemma {:induction false} DecodeSextets(b: seq<Byte>)
    ensures |Sextets(b)| % 4 != 1 && Decode(Sextets(b)) == b
    decreases |b|
  {
    SextetsCount(b);
    if |b| >= 3 {
      var sx := Sextets(b);
      DecodeSextets(b[3..]);
      GroupRoundTrip(b[0], b[1], b[2]);
      assert sx[4..] == Sextets(b[3..]);
      assert sx[..4] == [b[0] / 4, (b[0] % 4) * 16 + b[1] / 16, (b[1] % 16) * 4 + b[2] / 64, b[2] % 64];
      DecodeGroup(sx);
      assert Decode(sx) == [b[0], b[1], b[2]] + Decode(sx[4..]);
      assert b == [b[0], b[1], b[2]] + b[3..];
    } else if |b| == 2 {
      GroupRoundTrip(b[0], b[1], 0);
    } else if |b| == 1 {
      GroupRoundTrip(b[0], 0, 0);
    }
  }

  lemma DecodeGroup(sx: seq<Sextet>)
    requires |sx| >= 4 && |sx| % 4 != 1
    ensures var s0: int, s1: int, s2: int := sx[0], sx[1], sx[2];
            Decode(sx) == [s0 * 4 + s1 / 16, (s1 % 16) * 16 + s2 / 4, (s2 % 4) * 64 + sx[3]] + Decode(sx[4..])
  {
  }

  /** The sextets never leave a lone character in the last group. */
  lemma SextetsCount(b: seq<Byte>)
    ensures |Sextets(b)| % 4 != 1
  {
    var q, r := |b| / 3, |b| % 3;
    assert |Sextets(b)| == 4 * q + (if r == 0 then 0 else r + 1);
    assert (4 * q) % 4 == 0;
  }

  /** One group: the four sextets of three bytes give the bytes back, and when the group is
      cut short the sextets it keeps give back the bytes they cover. */
  lemma GroupRoundTrip(x: Byte, y: Byte, z: Byte)
    ensures var s0: int, s1: int, s2: int := x / 4, (x % 4) * 16 + y / 16, (y % 16) * 4 + z / 64;
            s0 * 4 + s1 / 16 == x && (s1 % 16) * 16 + s2 / 4 == y && (s2 % 4) * 64 + z % 64 == z
  {
  }

  /** Reading back the characters of a sextet string gives the sextets. */
  lemma {:induction false} SextetsOfChars(sx: seq<Sextet>)
    ensures SextetsOf(Chars(sx)) == Some(sx)
    decreases |sx|
  {
    if sx != [] {
      var c := Chars(sx);
      SextetRoundTrip(sx[0]);
      assert SextetOf(c[0]) == Some(sx[0]);
      SextetsOfChars(sx[1..]);
      assert c[1..] == Chars(sx[1..]);
      assert sx == [sx[0]] + sx[1..];
    }
  }

  /** Base64 text holds no whitespace. */
  lemma {:induction false} StripNoWhitespace(s: seq<Unit>)
    requires forall i :: 0 <= i < |s| ==> !IsAsciiWhitespace(s[i])
    ensures StripWhitespace(s) == s
    decreases |s|
  {
    if s != [] {
      StripNoWhitespace(s[1..]);
    }
  }

  /** Every character of an encoding is in the alphabet or is the padding character, and the
      first one (if any) is in the alphabet. */
  lemma EncodeAlphabet(b: seq<Byte>)
    ensures |Encode(b)| % 4 == 0
    ensures forall i :: 0 <= i < |Encode(b)| ==> SextetOf(Encode(b)[i]).Some? || Encode(b)[i] == PAD
    ensures |b| > 0 ==> |Encode(b)| > 0 && SextetOf(Encode(b)[0]).Some?
  {
    var sx := Sextets(b);
    var e := Encode(b);
    forall i | 0 <= i < |e|
      ensures SextetOf(e[i]).Some? || e[i] == PAD
    {
      if i < |sx| {
        SextetRoundTrip(sx[i]);
      }
    }
    if |b| > 0 {
      SextetRoundTrip(sx[0]);
    }
  }

  /** An encoding contains no ASCII whitespace. */
  lemma EncodeNoWhitespace(b: seq<Byte>)
    ensures forall i :: 0 <= i < |Encode(b)| ==> !IsAsciiWhitespace(Encode(b)[i])
  {
    EncodeAlphabet(b);
  }

  /** Dropping the padding of an encoding leaves exactly its alphabet characters. */
  lemma DropPaddingEncode(b: seq<Byte>)
    ensures DropPadding(Encode(b)) == Chars(Sextets(b))
  {
    var sx := Sextets(b);
    var cs := Chars(sx);
    var pad := Padding(|b|);
    var e := cs + pad;
    assert Encode(b) == e;
    assert |e| % 4 == 0 by { EncodeAlphabet(b); }
    if |pad| == 0 {
      if |e| > 0 {
        assert e[|e| - 1] == cs[|cs| - 1] == SextetChar(sx[|sx| - 1]);
      }
      assert DropPadding(e) == e == cs;
    } else if |pad| == 1 {
      assert e[|e| - 1] == PAD;
      assert e[|e| - 2] == cs[|cs| - 1] == SextetChar(sx[|sx| - 1]);
      assert e[..|e| - 1] == cs;
    } else {
      assert e[|e| - 1] == PAD && e[|e| - 2] == PAD;
      assert e[..|e| - 2] == cs;
    }
  }

  /** `atob(btoa(s)) == s` for every string `btoa` accepts. */
  lemma AtobBtoa(s: seq<Unit>)
    requires Btoa(s).Some?
    ensures Atob(Btoa(s).value) == Some(s)
  {
    var b := Latin1(s).value;
    var e := Encode(b);
    assert Btoa(s).value == e;
    EncodeNoWhitespace(b);
    StripNoWhitespace(e);
    DropPaddingEncode(b);
    SextetsOfChars(Sextets(b));
    DecodeSextets(b);
    assert FromBytes(b) == s;
  }
}
