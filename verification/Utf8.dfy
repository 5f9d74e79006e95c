/** UTF-8 text: `String::into_bytes` and the replacing decoder `String::from_utf8_lossy`. */
module Utf8 {
  import opened Common

  const REPLACEMENT := '\U{FFFD}'

  predicate IsAscii(s: string) {
    forall i :: 0 <= i < |s| ==> s[i] as int < 128
  }

  function EncodeChar(c: char): seq<byte> {
    var v := c as int;
    if v < 0x80 then [v]
    else if v < 0x800 then [0xC0 + v / 64, 0x80 + v % 64]
    else if v < 0x1_0000 then [0xE0 + v / 4096, 0x80 + v / 64 % 64, 0x80 + v % 64]
    else [0xF0 + v / 262144, 0x80 + v / 4096 % 64, 0x80 + v / 64 % 64, 0x80 + v % 64]
  }

  function Encode(s: string): seq<byte> {
    if s == [] then [] else EncodeChar(s[0]) + Encode(s[1..])
  }

  /** The byte at a position, or 0 (never a continuation byte) past the end. */
  function At(b: seq<byte>, i: nat): byte {
    if i < |b| then b[i] else 0
  }

  predicate Continues(x: byte) {
    0x80 <= x < 0xC0
  }

  /** Whether `y` may follow the lead byte `x` of a three-byte character. */
  predicate SecondOfThree(x: byte, y: byte) {
    Continues(y) && (x == 0xE0 ==> y >= 0xA0) && (x == 0xED ==> y < 0xA0)
  }

  /** Whether `y` may follow the lead byte `x` of a four-byte character. */
  predicate SecondOfFour(x: byte, y: byte) {
    Continues(y) && (x == 0xF0 ==> y >= 0x90) && (x == 0xF4 ==> y < 0x90)
  }

  /** One decoding step: a character and the bytes it used up. An ill-formed start
      yields the replacement character for its longest well-formed beginning. */
  function DecodeStep(b: seq<byte>): (r: (char, nat))
    requires b != []
    ensures 1 <= r.1 <= |b|
  {
    var x, y, z, w := b[0], At(b, 1), At(b, 2), At(b, 3);
    if x < 0x80 then (x as char, 1)
    else if 0xC2 <= x < 0xE0 then
      if Continues(y) then (((x - 0xC0) * 64 + (y - 0x80)) as char, 2) else (REPLACEMENT, 1)
    else if 0xE0 <= x < 0xF0 then
      if !SecondOfThree(x, y) then (REPLACEMENT, 1)
      else if !Continues(z) then (REPLACEMENT, 2)
      else (((x - 0xE0) * 4096 + (y - 0x80) * 64 + (z - 0x80)) as char, 3)
    else if 0xF0 <= x < 0xF5 then
      if !SecondOfFour(x, y) then (REPLACEMENT, 1)
      else if !Continues(z) then (REPLACEMENT, 2)
      else if !Continues(w) then (REPLACEMENT, 3)
      else (((x - 0xF0) * 262144 + (y - 0x80) * 4096 + (z - 0x80) * 64 + (w - 0x80)) as char, 4)
    else (REPLACEMENT, 1)
  }

  /** Every byte string decodes, to at most one character a byte. */
  function Lossy(b: seq<byte>): (s: string)
    ensures |s| <= |b|
  {
    if b == [] then [] else
      var (c, n) := DecodeStep(b);
      [c] + Lossy(b[n..])
  }

  lemma DecodeThree(v: nat, rest: seq<byte>)
    requires 0x800 <= v < 0xD800 || 0xE000 <= v < 0x1_0000
    ensures DecodeStep([0xE0 + v / 4096, 0x80 + v / 64 % 64, 0x80 + v % 64] + rest) == (v as char, 3)
  {
    assert v == v / 4096 * 4096 + v / 64 % 64 * 64 + v % 64;
    assert v / 4096 == 0 ==> v / 64 % 64 >= 0x20;
    assert v / 4096 == 13 ==> v / 64 % 64 < 0x20;
  }

  lemma DecodeFour(v: nat, rest: seq<byte>)
    requires 0x1_0000 <= v < 0x11_0000
    ensures DecodeStep([0xF0 + v / 262144, 0x80 + v / 4096 % 64, 0x80 + v / 64 % 64, 0x80 + v % 64] + rest) ==
              (v as char, 4)
  {
    assert v == v / 262144 * 262144 + v / 4096 % 64 * 4096 + v / 64 % 64 * 64 + v % 64;
    assert v / 262144 == 0 ==> v / 4096 % 64 >= 0x10;
    assert v / 262144 == 4 ==> v / 4096 % 64 < 0x10;
  }

  lemma DecodeStepOfEncoded(c: char, rest: seq<byte>)
    ensures DecodeStep(EncodeChar(c) + rest) == (c, |EncodeChar(c)|)
  {
    var v := c as int;
    if 0x800 <= v < 0x1_0000 {
      DecodeThree(v, rest);
    } else if 0x1_0000 <= v {
      DecodeFour(v, rest);
    }
  }

  /** Text survives the trip over the wire: lossy decoding loses nothing of what was encoded. */
  lemma {:induction false} LossyOfEncode(s: string)
    ensures Lossy(Encode(s)) == s
  {
    if s == [] {
    } else {
      var head, rest := EncodeChar(s[0]), Encode(s[1..]);
      DecodeStepOfEncoded(s[0], rest);
      LossyOfEncode(s[1..]);
      assert (head + rest)[|head|..] == rest;
      assert s == [s[0]] + s[1..];
    }
  }

  /** The forms of one, two, three and four bytes, on an example each (section 7 of RFC 3629 has the like). */
  lemma EncodedExamples()
    ensures Encode("A") == [0x41] && Encode("\U{00E9}") == [0xC3, 0xA9]
    ensures Encode("\U{672A}") == [0xE6, 0x9C, 0xAA] && Encode("\U{1F600}") == [0xF0, 0x9F, 0x98, 0x80]
  {
  }

  lemma DecodedTwo(x: byte, y: byte)
    requires 0xC2 <= x < 0xE0 && Continues(y)
    ensures EncodeChar(((x - 0xC0) * 64 + (y - 0x80)) as char) == [x, y]
  {
  }

  lemma DecodedThree(x: byte, y: byte, z: byte)
    requires 0xE0 <= x < 0xF0 && SecondOfThree(x, y) && Continues(z)
    ensures
      var v := (x - 0xE0) * 4096 + (y - 0x80) * 64 + (z - 0x80);
      (0x800 <= v < 0xD800 || 0xE000 <= v < 0x1_0000) && EncodeChar(v as char) == [x, y, z]
  {
    var v := (x - 0xE0) * 4096 + (y - 0x80) * 64 + (z - 0x80);
    assert v / 64 == (x - 0xE0) * 64 + (y - 0x80);
    assert v / 4096 == x - 0xE0 && v / 64 % 64 == y - 0x80 && v % 64 == z - 0x80;
  }

  lemma DecodedFour(x: byte, y: byte, z: byte, w: byte)
    requires 0xF0 <= x < 0xF5 && SecondOfFour(x, y) && Continues(z) && Continues(w)
    ensures
      var v := (x - 0xF0) * 262144 + (y - 0x80) * 4096 + (z - 0x80) * 64 + (w - 0x80);
      0x1_0000 <= v < 0x11_0000 && EncodeChar(v as char) == [x, y, z, w]
  {
    var v := (x - 0xF0) * 262144 + (y - 0x80) * 4096 + (z - 0x80) * 64 + (w - 0x80);
    assert v / 64 == (x - 0xF0) * 4096 + (y - 0x80) * 64 + (z - 0x80);
    assert v / 4096 == (x - 0xF0) * 64 + (y - 0x80) && v / 262144 == x - 0xF0;
    assert v / 4096 % 64 == y - 0x80 && v / 64 % 64 == z - 0x80 && v % 64 == w - 0x80;
  }

  /** The first bytes of a string, as far as `At` sees them. */
  lemma FirstBytes(b: seq<byte>)
    ensures |b| >= 2 ==> b[..2] == [At(b, 0), At(b, 1)]
    ensures |b| >= 3 ==> b[..3] == [At(b, 0), At(b, 1), At(b, 2)]
    ensures |b| >= 4 ==> b[..4] == [At(b, 0), At(b, 1), At(b, 2), At(b, 3)]
  {
  }

  lemma DecodeStepIsExact(b: seq<byte>)
    requires b != []
    ensures DecodeStep(b).0 == '\U{FFFD}' || EncodeChar(DecodeStep(b).0) == b[..DecodeStep(b).1]
  {
    var x, y, z, w := b[0], At(b, 1), At(b, 2), At(b, 3);
    FirstBytes(b);
    if x < 0x80 {
    } else if 0xC2 <= x < 0xE0 && Continues(y) {
      DecodedTwo(x, y);
    } else if 0xE0 <= x < 0xF0 && SecondOfThree(x, y) && Continues(z) {
      DecodedThree(x, y, z);
    } else if 0xF0 <= x < 0xF5 && SecondOfFour(x, y) && Continues(z) && Continues(w) {
      DecodedFour(x, y, z, w);
    }
  }

  /** One decoded character and what it was decoded from. */
  lemma LossySplits(b: seq<byte>) returns (c: char, n: nat)
    requires b != []
    ensures 1 <= n <= |b| && Lossy(b) == [c] + Lossy(b[n..])
    ensures c == '\U{FFFD}' || EncodeChar(c) == b[..n]
  {
    c, n := DecodeStep(b).0, DecodeStep(b).1;
    DecodeStepIsExact(b);
  }

  lemma EncodeStep(c: char, tail: string)
    ensures Encode([c] + tail) == EncodeChar(c) + Encode(tail)
  {
    assert ([c] + tail)[1..] == tail;
  }

  /** What is decoded without a replacement character is exactly what the bytes encode. */
  lemma {:induction false} LossyIsExact(b: seq<byte>)
    requires '\U{FFFD}' !in Lossy(b)
    ensures Encode(Lossy(b)) == b
    decreases |b|
  {
    if b == [] {
    } else {
      var c, n := LossySplits(b);
      var tail := Lossy(b[n..]);
      assert c in [c] + tail && forall d :: d in tail ==> d in [c] + tail;
      LossyIsExact(b[n..]);
      EncodeStep(c, tail);
      assert b == b[..n] + b[n..];
    }
  }

  lemma EncodedStart(s: string)
    ensures Encode(s) == [] || !Continues(Encode(s)[0])
  {
  }

  lemma StepEndsBefore(a: seq<byte>, rest: seq<byte>)
    requires a != [] && (rest == [] || !Continues(rest[0]))
    ensures DecodeStep(a + rest) == DecodeStep(a)
  {
    var n := |a|;
    assert forall i :: 0 <= i < n ==> At(a + rest, i) == At(a, i);
    assert !Continues(At(a + rest, n)) && !Continues(At(a, n));
  }

  /** Ill-formed bytes spoil nothing that follows them: text after them is decoded as it was written. */
  lemma {:induction false} GarbageIsContained(a: seq<byte>, s: string)
    ensures Lossy(a + Encode(s)) == Lossy(a) + s
    decreases |a|
  {
    var rest := Encode(s);
    if a == [] {
      assert [] + rest == rest;
      LossyOfEncode(s);
    } else {
      var (c, n) := DecodeStep(a);
      EncodedStart(s);
      StepEndsBefore(a, rest);
      assert (a + rest)[n..] == a[n..] + rest;
      GarbageIsContained(a[n..], s);
      assert [c] + (Lossy(a[n..]) + s) == [c] + Lossy(a[n..]) + s;
    }
  }

  /** Each longest beginning of a well-formed character is replaced once, and each stray byte (after table 3-8 of the
      Unicode Standard 6.0). */
  lemma ReplacedExamples()
    ensures Lossy([0xF1, 0x80, 0x80, 0x62]) == "\U{FFFD}b" && Lossy([0xE1, 0x80, 0x62]) == "\U{FFFD}b"
    ensures Lossy([0xC2, 0x62]) == "\U{FFFD}b" && Lossy([0x80, 0xBF]) == "\U{FFFD}\U{FFFD}"
  {
    assert Lossy([0x62]) == "b" && Lossy([0xBF]) == "\U{FFFD}";
    LossySplitsAt([0xF1, 0x80, 0x80, 0x62], 3);
    LossySplitsAt([0xE1, 0x80, 0x62], 2);
    LossySplitsAt([0xC2, 0x62], 1);
    LossySplitsAt([0x80, 0xBF], 1);
  }

  lemma LossySplitsAt(b: seq<byte>, n: nat)
    requires b != [] && DecodeStep(b) == ('\U{FFFD}', n)
    ensures n <= |b| && Lossy(b) == "\U{FFFD}" + Lossy(b[n..])
  {
  }
}
