/**
 * Client-side obfuscation of stored data: every code unit of the text is XORed with the
 * key's code unit at the same position modulo the key length, and the result is base64
 * encoded with `btoa`. Decryption runs `atob` and the same XOR pass. The wrappers fall back
 * to the plaintext when the codec throws, and the storage reader only decrypts values that
 * look encrypted.
 *
 * Strings are sequences of UTF-16 code units (`Base64.Unit`), as `charCodeAt` sees them.
 */
module Encryption {
  import opened Wrappers
  import opened Base64
  import JsText

  /** 2^n. */
  function Pow2(n: nat): (r: nat)
    ensures r >= 1
  {
    if n == 0 then 1 else 2 * Pow2(n - 1)
  }

  /** Bitwise exclusive or of two non-negative integers, one binary digit at a time. */
  function Xor(a: nat, b: nat): nat
    decreases a + b
  {
    if a == 0 && b == 0 then 0 else (a % 2 + b % 2) % 2 + 2 * Xor(a / 2, b / 2)
  }

  /** XOR of two n-bit numbers is an n-bit number. */
  lemma {:induction false} XorBound(a: nat, b: nat, n: nat)
    requires a < Pow2(n) && b < Pow2(n)
    ensures Xor(a, b) < Pow2(n)
    decreases n
  {
    if n > 0 && !(a == 0 && b == 0) {
      XorBound(a / 2, b / 2, n - 1);
    }
  }

  /** One step of `Xor`, also at (0, 0). */
  lemma XorStep(a: nat, b: nat)
    ensures Xor(a, b) == (a % 2 + b % 2) % 2 + 2 * Xor(a / 2, b / 2)
  {
  }

  /** A bit and twice a number: the bit is the remainder and the number the half. */
  lemma HalfAndBit(r: nat, q: nat)
    requires r < 2
    ensures (r + 2 * q) % 2 == r && (r + 2 * q) / 2 == q
  {
  }

  /** One binary digit XORed twice with the same digit. */
  lemma BitCancel(x: nat, y: nat)
    requires x < 2 && y < 2
    ensures ((x + y) % 2 + y) % 2 == x
  {
  }

  /** XORing with the same value twice gives the original back. */
  lemma {:induction false} XorCancel(a: nat, b: nat)
    ensures Xor(Xor(a, b), b) == a
    decreases a + b
  {
    if !(a == 0 && b == 0) {
      var x := Xor(a, b);
      XorStep(a, b);
      XorStep(x, b);
      var r := (a % 2 + b % 2) % 2;
      HalfAndBit(r, Xor(a / 2, b / 2));
      assert x % 2 == r && x / 2 == Xor(a / 2, b / 2);
      XorCancel(a / 2, b / 2);
      BitCancel(a % 2, b % 2);
    }
  }

  /** The widths the code needs: a byte and a UTF-16 code unit. */
  lemma Pow2Widths()
    ensures Pow2(8) == 0x100 && Pow2(16) == 0x1_0000
  {
    assert Pow2(2) == 4;
    assert Pow2(4) == 16;
    assert Pow2(6) == 64;
    assert Pow2(8) == 0x100;
    assert Pow2(10) == 0x400;
    assert Pow2(12) == 0x1000;
    assert Pow2(14) == 0x4000;
  }

  /** XOR with zero is the identity. */
  lemma {:induction false} XorZero(a: nat)
    ensures Xor(a, 0) == a
    decreases a
  {
    if a != 0 {
      XorZero(a / 2);
    }
  }

  /** `text.charCodeAt(i) ^ key.charCodeAt(i % key.length)` as a 16-bit code unit. With an
      empty key `i % 0` is NaN, `charCodeAt` then yields NaN, and `x ^ NaN` is `x`. */
  function XorUnit(c: Unit, key: seq<Unit>, i: nat): (r: Unit)
    ensures |key| == 0 ==> r == c
  {
    if |key| == 0 then
      XorZero(c);
      c
    else
      Pow2Widths();
      XorBound(c, key[i % |key|], 16);
      Xor(c, key[i % |key|])
  }

  /** The XOR pass of `simpleEncrypt`/`simpleDecrypt` as a whole-string function. */
  function Xored(text: seq<Unit>, key: seq<Unit>): (r: seq<Unit>)
    ensures |r| == |text|
    ensures forall i :: 0 <= i < |text| ==> r[i] == XorUnit(text[i], key, i)
  {
    seq(|text|, i requires 0 <= i < |text| => XorUnit(text[i], key, i))
  }

  /** The XOR pass is an involution: running it twice with one key restores the text. */
  lemma XoredInvolution(text: seq<Unit>, key: seq<Unit>)
    ensures Xored(Xored(text, key), key) == text
  {
    forall i | 0 <= i < |text|
      ensures Xored(Xored(text, key), key)[i] == text[i]
    {
      if |key| > 0 {
        XorCancel(text[i], key[i % |key|]);
      }
    }
  }

  /** With an empty key the XOR pass changes nothing. */
  lemma XoredEmptyKey(text: seq<Unit>)
    ensures Xored(text, []) == text
  {
  }

  /** The loop shared by `simpleEncrypt` and `simpleDecrypt`: one code unit per iteration
      appended to `result`. */
  method XorPass(text: seq<Unit>, key: seq<Unit>) returns (result: seq<Unit>)
    ensures result == Xored(text, key)
  {
    result := [];
    var i := 0;
    while i < |text|
      invariant 0 <= i <= |text|
      invariant |result| == i
      invariant forall j :: 0 <= j < i ==> result[j] == XorUnit(text[j], key, j)
    {
      result := result + [XorUnit(text[i], key, i)];
      i := i + 1;
    }
  }

  /** What `simpleEncrypt` computes; `None` where `btoa` throws (some XORed unit above 0xFF). */
  function Encrypted(text: seq<Unit>, key: seq<Unit>): Option<seq<Unit>> {
    Btoa(Xored(text, key))
  }

  /** What `simpleDecrypt` computes; `None` where it throws 'Decryption failed'. */
  function Decrypted(encrypted: seq<Unit>, key: seq<Unit>): Option<seq<Unit>> {
    match Atob(encrypted)
    case None => None
    case Some(t) => Some(Xored(t, key))
  }

  /** `simpleEncrypt(text, key)`. */
  method SimpleEncrypt(text: seq<Unit>, key: seq<Unit>) returns (r: Option<seq<Unit>>)
    ensures r.None? <==> exists i :: 0 <= i < |text| && XorUnit(text[i], key, i) >= 256
    ensures r == Encrypted(text, key)
  {
    var result := XorPass(text, key);
    r := Btoa(result);
  }

  /** `simpleDecrypt(encrypted, key)`. */
  method SimpleDecrypt(encrypted: seq<Unit>, key: seq<Unit>) returns (r: Option<seq<Unit>>)
    ensures r.None? <==> Atob(encrypted).None?
    ensures r.Some? ==> |r.value| == |Atob(encrypted).value|
    ensures r == Decrypted(encrypted, key)
  {
    var text := Atob(encrypted);
    if text.None? {
      return None;
    }
    var result := XorPass(text.value, key);
    r := Some(result);
  }

  /** Decrypting what was encrypted with the same key gives the text back. */
  lemma DecryptEncrypt(text: seq<Unit>, key: seq<Unit>)
    requires Encrypted(text, key).Some?
    ensures Decrypted(Encrypted(text, key).value, key) == Some(text)
  {
    AtobBtoa(Xored(text, key));
    XoredInvolution(text, key);
  }

  /** Encryption succeeds exactly when every XORed code unit fits in a byte. */
  lemma EncryptDefinedIff(text: seq<Unit>, key: seq<Unit>)
    ensures Encrypted(text, key).Some? <==> forall i :: 0 <= i < |text| ==> XorUnit(text[i], key, i) < 256
  {
  }

  /** Latin-1 text under a Latin-1 key always encrypts: XOR of two bytes is a byte. */
  lemma EncryptLatin1(text: seq<Unit>, key: seq<Unit>)
    requires forall i :: 0 <= i < |text| ==> text[i] < 256
    requires forall i :: 0 <= i < |key| ==> key[i] < 256
    ensures Encrypted(text, key).Some?
  {
    forall i | 0 <= i < |text|
      ensures XorUnit(text[i], key, i) < 256
    {
      if |key| > 0 {
        Pow2Widths();
        XorBound(text[i], key[i % |key|], 8);
      }
    }
  }

  const OPEN_BRACE: Unit := 0x7B    // '{'
  const OPEN_BRACKET: Unit := 0x5B  // '['

  /** `isEncrypted(data)`: not JSON-looking (no leading `{` or `[`) and accepted by `atob`. */
  predicate IsEncrypted(data: seq<Unit>) {
    !([OPEN_BRACE] <= data || [OPEN_BRACKET] <= data) && Atob(data).Some?
  }

  /** JSON objects and arrays are never taken for ciphertext. */
  lemma JsonLookingNotEncrypted(data: seq<Unit>)
    requires |data| > 0 && (data[0] == OPEN_BRACE || data[0] == OPEN_BRACKET)
    ensures !IsEncrypted(data)
  {
    assert [data[0]] <= data;
  }

  /** Every output of `simpleEncrypt` is classified as encrypted, since neither `{` nor `[`
      belongs to the base64 alphabet. */
  lemma EncryptedIsEncrypted(text: seq<Unit>, key: seq<Unit>)
    requires Encrypted(text, key).Some?
    ensures IsEncrypted(Encrypted(text, key).value)
  {
    var b := Latin1(Xored(text, key)).value;
    var e := Encrypted(text, key).value;
    assert e == Encode(b);
    EncodeAlphabet(b);
    AtobBtoa(Xored(text, key));
    if |e| > 0 {
      assert SextetOf(e[0]).Some?;
      assert e[0] != OPEN_BRACE && e[0] != OPEN_BRACKET;
    }
  }

  /** The UTF-16 code units of a string of Basic Multilingual Plane characters. */
  function BmpUnits(s: string): (r: seq<Unit>)
    requires forall i :: 0 <= i < |s| ==> s[i] as int < 0x1_0000
    ensures |r| == |s|
  {
    seq(|s|, i requires 0 <= i < |s| => s[i] as int as Unit)
  }

  const SERVER_KEY: string := "default-key-change-in-production"
  const MS_PER_HOUR: nat := 1000 * 60 * 60
  const KEY_LENGTH: nat := 32

  /** Where `getEncryptionKey` runs and what it finds there. */
  datatype KeyEnvironment = Server | Browser(cached: Option<seq<Unit>>, userAgent: seq<Unit>, nowMs: nat)

  /** `getEncryptionKey()`: the fixed server key, a non-empty cached session key, or the first
      32 characters of `btoa(userAgent || 'default' + hour)`. `None` where `btoa` throws. */
  function EncryptionKey(env: KeyEnvironment): Option<seq<Unit>> {
    match env
    case Server => Some(BmpUnits(SERVER_KEY))
    case Browser(cached, userAgent, nowMs) =>
      if cached.Some? && cached.value != [] then cached
      else
        var agent := if userAgent == [] then BmpUnits("default") else userAgent;
        match Btoa(agent + BmpUnits(JsText.NatToDecimal(nowMs / MS_PER_HOUR)))
        case None => None
        case Some(e) => Some(if |e| <= KEY_LENGTH then e else e[..KEY_LENGTH])
  }

  /** A freshly derived key is a non-empty prefix of at most 32 characters of a base64 text. */
  lemma DerivedKeyShape(userAgent: seq<Unit>, nowMs: nat)
    requires EncryptionKey(Browser(None, userAgent, nowMs)).Some?
    ensures var k := EncryptionKey(Browser(None, userAgent, nowMs)).value;
            0 < |k| <= KEY_LENGTH
            && forall i :: 0 <= i < |k| ==> SextetOf(k[i]).Some? || k[i] == PAD
  {
    var agent := if userAgent == [] then BmpUnits("default") else userAgent;
    var input := agent + BmpUnits(JsText.NatToDecimal(nowMs / MS_PER_HOUR));
    var b := Latin1(input).value;
    EncodeAlphabet(b);
  }

  /** `encryptSensitiveData(data)`: the ciphertext, or the data itself when the key or the
      codec throws. */
  method EncryptSensitiveData(data: seq<Unit>, env: KeyEnvironment) returns (r: seq<Unit>)
    ensures r == EncryptedOrPlain(data, env)
  {
    var key := EncryptionKey(env);
    if key.None? {
      return data;
    }
    var e := SimpleEncrypt(data, key.value);
    r := if e.Some? then e.value else data;
  }

  function EncryptedOrPlain(data: seq<Unit>, env: KeyEnvironment): seq<Unit> {
    match EncryptionKey(env)
    case None => data
    case Some(k) => Encrypted(data, k).GetOr(data)
  }

  /** `decryptSensitiveData(encrypted)`: the plaintext, or the input itself when the key or
      the codec throws. */
  method DecryptSensitiveData(encrypted: seq<Unit>, env: KeyEnvironment) returns (r: seq<Unit>)
    ensures r == DecryptedOrInput(encrypted, env)
  {
    var key := EncryptionKey(env);
    if key.None? {
      return encrypted;
    }
    var d := SimpleDecrypt(encrypted, key.value);
    r := if d.Some? then d.value else encrypted;
  }

  function DecryptedOrInput(encrypted: seq<Unit>, env: KeyEnvironment): seq<Unit> {
    match EncryptionKey(env)
    case None => encrypted
    case Some(k) => Decrypted(encrypted, k).GetOr(encrypted)
  }

  /** The fallbacks never turn a value into anything but its ciphertext or itself. */
  lemma FallbackShapes(data: seq<Unit>, env: KeyEnvironment)
    ensures EncryptionKey(env).None? ==> EncryptedOrPlain(data, env) == data && DecryptedOrInput(data, env) == data
    ensures EncryptionKey(env).Some? && Encrypted(data, EncryptionKey(env).value).None? ==> EncryptedOrPlain(data, env) == data
    ensures EncryptionKey(env).Some? && Atob(data).None? ==> DecryptedOrInput(data, env) == data
  {
  }

  /** Reading back a value written through the encrypting wrapper under the same key gives
      that value, whenever the ciphertext was produced: */
  lemma ReadAfterEncryptedWrite(data: seq<Unit>, env: KeyEnvironment)
    requires EncryptionKey(env).Some? && Encrypted(data, EncryptionKey(env).value).Some?
    ensures DecryptedOrInput(EncryptedOrPlain(data, env), env) == data
  {
    DecryptEncrypt(data, EncryptionKey(env).value);
  }

  /** The browser's `localStorage` as the map from keys to stored strings. */
  class LocalStorage {
    var items: map<string, seq<Unit>>

    constructor(items: map<string, seq<Unit>>)
      ensures this.items == items
    {
      this.items := items;
    }

    /** `readEncryptedStorage(key)`; `None` is `null`. Off the browser nothing is read. */
    method ReadEncryptedStorage(key: string, inBrowser: bool, env: KeyEnvironment) returns (r: Option<seq<Unit>>)
      ensures r == StoredValue(if inBrowser then StorageItem(items, key) else None, env)
    {
      if !inBrowser {
        return None;
      }
      if key !in items || items[key] == [] {
        return None;
      }
      var stored := items[key];
      if IsEncrypted(stored) {
        var d := DecryptSensitiveData(stored, env);
        return Some(d);
      }
      return Some(stored);
    }

    /** `writeEncryptedStorage(key, data)`: stores the encrypting wrapper's output and reports
        true, or reports false (off the browser, or when `setItem` throws, `quotaExceeded`). */
    method WriteEncryptedStorage(key: string, data: seq<Unit>, inBrowser: bool, env: KeyEnvironment, quotaExceeded: bool)
      returns (ok: bool)
      modifies this
      ensures ok <==> inBrowser && !quotaExceeded
      ensures ok ==> items == old(items)[key := EncryptedOrPlain(data, env)]
      ensures !ok ==> items == old(items)
    {
      if !inBrowser || quotaExceeded {
        return false;
      }
      var encrypted := EncryptSensitiveData(data, env);
      items := items[key := encrypted];
      return true;
    }
  }

  function StorageItem(items: map<string, seq<Unit>>, key: string): Option<seq<Unit>> {
    if key in items then Some(items[key]) else None
  }

  /** The value `readEncryptedStorage` returns for what `getItem` found. */
  function StoredValue(stored: Option<seq<Unit>>, env: KeyEnvironment): (r: Option<seq<Unit>>)
    ensures stored.None? || stored == Some([]) ==> r.None?
    ensures stored.Some? && stored.value != [] && !IsEncrypted(stored.value) ==> r == stored
    ensures stored.Some? && stored.value != [] && IsEncrypted(stored.value) ==> r == Some(DecryptedOrInput(stored.value, env))
  {
    match stored
    case None => None
    case Some(s) =>
      if s == [] then None
      else if IsEncrypted(s) then Some(DecryptedOrInput(s, env))
      else Some(s)
  }

  /** A value written with a working codec reads back as itself. */
  lemma WriteThenRead(data: seq<Unit>, env: KeyEnvironment)
    requires EncryptionKey(env).Some? && Encrypted(data, EncryptionKey(env).value).Some?
    requires data != []
    ensures StoredValue(Some(EncryptedOrPlain(data, env)), env) == Some(data)
  {
    var k := EncryptionKey(env).value;
    EncryptedIsEncrypted(data, k);
    ReadAfterEncryptedWrite(data, env);
    var e := Encrypted(data, k).value;
    assert |e| > 0 by {
      var b := Latin1(Xored(data, k)).value;
      assert |Sextets(b)| > 0;
    }
  }
}
