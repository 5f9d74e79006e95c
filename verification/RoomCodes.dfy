/** Room codes `U/XXXX-XXXX-XXXX-XXXX`: the checksum, generation and parsing. */
module RoomCodes {
  import opened Common

  const PREFIX := "U/"
  const CHARS := "0123456789ABCDEFGHJKLMNPQRSTUVWXYZ"

  /// ## Digits

  /** Position of a character in the alphabet, as `CHARS.find`. */
  function Digit(c: char): (d: Option<nat>)
    ensures d.Some? ==> d.value < 34
  {
    var v := c as int;
    if '0' <= c <= '9' then Some(v - 48)
    else if 'A' <= c <= 'H' then Some(v - 55)
    else if 'J' <= c <= 'N' then Some(v - 56)
    else if 'P' <= c <= 'Z' then Some(v - 57)
    else None
  }

  /** `Digit` finds a character exactly at its one position in the alphabet. */
  lemma DigitIsFind(c: char)
    ensures |CHARS| == 34
    ensures forall i :: 0 <= i < 34 ==> (Digit(c) == Some(i) <==> CHARS[i] == c)
    ensures Digit(c).None? <==> c !in CHARS
  {
    if Digit(c).Some? {
      assert CHARS[Digit(c).value] == c;
    }
  }

  /** The character class of the format's regular expression. */
  predicate CodeChar(c: char) {
    'A' <= c <= 'H' || 'J' <= c <= 'N' || 'P' <= c <= 'Z' || '0' <= c <= '9'
  }

  /** The parser's class and the generator's alphabet are the same characters. */
  lemma ClassIsAlphabet(c: char)
    ensures CodeChar(c) <==> c in CHARS
    ensures CodeChar(c) <==> Digit(c).Some?
  {
    DigitIsFind(c);
  }

  ghost predicate AllDigits(s: string) {
    forall i :: 0 <= i < |s| ==> Digit(s[i]).Some?
  }

  /** A string of alphabet characters as a little-endian number in base 34. */
  function Value(s: string): nat
    requires AllDigits(s)
  {
    if s == [] then 0 else Digit(s[0]).value + 34 * Value(s[1..])
  }

  /** Sum of the digits from position `i` on, with alternating signs. */
  function Alternating(s: string): int
    requires AllDigits(s)
  {
    if s == [] then 0 else Digit(s[0]).value - Alternating(s[1..])
  }

  function Power34(n: nat): nat {
    if n == 0 then 1 else 34 * Power34(n - 1)
  }

  /** 34 is -1 modulo 7, so the alternating sum of the digits is the number itself, modulo 7. */
  lemma {:induction false} AlternatingIsValue(s: string)
    requires AllDigits(s)
    ensures (Value(s) - Alternating(s)) % 7 == 0
  {
    if s == [] {
    } else {
      AlternatingIsValue(s[1..]);
      var v, a := Value(s[1..]), Alternating(s[1..]);
      assert Value(s) - Alternating(s) == 35 * v - (v - a);
    }
  }

  /// ## The checksum

  /** What the checksum stands for: characters of the alphabet whose number is divisible by 7. */
  ghost predicate ValidHalf(s: string) {
    AllDigits(s) && Value(s) % 7 == 0
  }

  lemma ValidByAlternating(s: string)
    requires AllDigits(s)
    ensures ValidHalf(s) <==> Alternating(s) % 7 == 0
  {
    AlternatingIsValue(s);
    SameModulo7(Value(s), Alternating(s));
  }

  lemma SameModulo7(v: int, a: int)
    requires (v - a) % 7 == 0
    ensures v % 7 == 0 <==> a % 7 == 0
  {
  }

  lemma MultipleOf7Plus(k: int, d: int)
    ensures (7 * k + d) % 7 == 0 <==> d % 7 == 0
  {
  }

  /** Adding to a multiple of 7, with either sign, keeps it one exactly for another multiple. */
  lemma ShiftBySigned(a: int, i: nat, d: int)
    requires a % 7 == 0
    ensures (a + Sign(i) * d) % 7 == 0 <==> d % 7 == 0
  {
    if i % 2 == 0 {
      assert Sign(i) * d == d;
      MultipleOf7Plus(a / 7, d);
    } else {
      assert Sign(i) * d == -d;
      MultipleOf7Plus(a / 7, -d);
    }
  }

  function Sign(i: nat): int {
    if i % 2 == 0 then 1 else -1
  }

  lemma {:induction false} AlternatingSnoc(s: string, c: char)
    requires AllDigits(s) && Digit(c).Some?
    ensures AllDigits(s + [c])
    ensures Alternating(s + [c]) == Alternating(s) + Sign(|s|) * Digit(c).value
  {
    if s == [] {
      assert (s + [c])[1..] == [];
    } else {
      AlternatingSnoc(s[1..], c);
      assert (s + [c])[1..] == s[1..] + [c];
    }
  }

  /** The loop decides divisibility by 7, for strings of any length. */
  method ValidateChecksum(chars: string) returns (ok: bool)
    ensures ok <==> ValidHalf(chars)
  {
    var value := 0;
    var i := 0;
    while i < |chars|
      invariant 0 <= i <= |chars|
      invariant AllDigits(chars[..i])
      invariant value == Alternating(chars[..i])
    {
      var digit := Digit(chars[i]);
      if digit.None? {
        return false;
      }
      AlternatingSnoc(chars[..i], chars[i]);
      assert chars[..i + 1] == chars[..i] + [chars[i]];
      value := value + Sign(i) * digit.value;
      i := i + 1;
    }
    assert chars[..i] == chars;
    ValidByAlternating(chars);
    ok := value % 7 == 0;
  }

  /// ## What the checksum detects

  lemma {:induction false} ValueUpdate(s: string, i: nat, c: char)
    requires AllDigits(s) && i < |s| && Digit(c).Some?
    ensures AllDigits(s[i := c])
    ensures Alternating(s[i := c]) == Alternating(s) + Sign(i) * (Digit(c).value - Digit(s[i]).value)
  {
    assert AllDigits(s[i := c]);
    if i == 0 {
      assert s[i := c][1..] == s[1..];
    } else {
      ValueUpdate(s[1..], i - 1, c);
      assert s[i := c][1..] == s[1..][i - 1 := c];
    }
  }

  /** Replacing one character of a valid half leaves it valid exactly when the new one is in the alphabet
      and the digits differ by a multiple of 7. */
  lemma SubstitutionKeepsValidity(s: string, i: nat, c: char)
    requires ValidHalf(s) && i < |s|
    ensures ValidHalf(s[i := c]) <==> Digit(c).Some? && (Digit(c).value - Digit(s[i]).value) % 7 == 0
  {
    if Digit(c).Some? {
      ValueUpdate(s, i, c);
      ValidByAlternating(s);
      ValidByAlternating(s[i := c]);
      ShiftBySigned(Alternating(s), i, Digit(c).value - Digit(s[i]).value);
    } else {
      assert s[i := c][i] == c;
    }
  }

  lemma Doubled(d: int)
    ensures 2 * d % 7 == 0 <==> d % 7 == 0
  {
  }

  lemma ValueSwap(s: string, i: nat)
    requires AllDigits(s) && i + 1 < |s|
    ensures AllDigits(s[i := s[i + 1]][i + 1 := s[i]])
    ensures Alternating(s[i := s[i + 1]][i + 1 := s[i]]) ==
              Alternating(s) + Sign(i) * (2 * (Digit(s[i + 1]).value - Digit(s[i]).value))
  {
    var d := Digit(s[i + 1]).value - Digit(s[i]).value;
    ValueUpdate(s, i, s[i + 1]);
    ValueUpdate(s[i := s[i + 1]], i + 1, s[i]);
    assert Sign(i + 1) * -d == Sign(i) * d;
  }

  /** Swapping two neighbours of a valid half leaves it valid exactly when their digits differ by a multiple of 7. */
  lemma SwapKeepsValidity(s: string, i: nat)
    requires ValidHalf(s) && i + 1 < |s|
    ensures ValidHalf(s[i := s[i + 1]][i + 1 := s[i]]) <==> (Digit(s[i + 1]).value - Digit(s[i]).value) % 7 == 0
  {
    ValueSwap(s, i);
    ValidByAlternating(s);
    ValidByAlternating(s[i := s[i + 1]][i + 1 := s[i]]);
    ShiftBySigned(Alternating(s), i, 2 * (Digit(s[i + 1]).value - Digit(s[i]).value));
    Doubled(Digit(s[i + 1]).value - Digit(s[i]).value);
  }

  /** Every prefix of alphabet characters can be completed to a valid half by one more character, so the
      generator's rejection loop can always end. */
  lemma EveryPrefixCompletes(prefix: string) returns (c: char)
    requires AllDigits(prefix)
    ensures ValidHalf(prefix + [c])
  {
    var d := Completing(Alternating(prefix), |prefix|);
    c := CharOf(d);
    AlternatingSnoc(prefix, c);
    ValidByAlternating(prefix + [c]);
  }

  lemma CharOf(d: nat) returns (c: char)
    requires d < 34
    ensures Digit(c) == Some(d)
  {
    c := CHARS[d];
    DigitIsFind(c);
  }

  lemma Completing(a: int, i: nat) returns (d: nat)
    ensures d < 7 && (a + Sign(i) * d) % 7 == 0
  {
    d := (if i % 2 == 0 then -a else a) % 7;
    assert Sign(i) * d == if i % 2 == 0 then d else 0 - d;
  }

  lemma {:induction false} ValueAppend(s: string, t: string)
    requires AllDigits(s) && AllDigits(t)
    ensures AllDigits(s + t) && Value(s + t) == Value(s) + Power34(|s|) * Value(t)
  {
    if s == [] {
      assert s + t == t;
    } else {
      ValueAppend(s[1..], t);
      assert (s + t)[1..] == s[1..] + t;
      TimesBase(Power34(|s| - 1), Value(t));
    }
  }

  lemma TimesBase(p: nat, v: nat)
    ensures 34 * (p * v) == (34 * p) * v
  {
  }

  lemma SumOfMultiples(v: nat, p: nat, w: nat)
    requires v % 7 == 0 && w % 7 == 0
    ensures (v + p * w) % 7 == 0
  {
    assert p * w == 7 * (p * (w / 7));
  }

  /// ## Generation

  /** The eight random bytes a half is made of. */
  type Buffer = b: seq<byte> | |b| == 8 witness [0, 0, 0, 0, 0, 0, 0, 0]

  function Encoded(bytes: seq<byte>): (s: string)
    ensures |s| == |bytes|
  {
    seq(|bytes|, i requires 0 <= i < |bytes| => CHARS[bytes[i] % 34])
  }

  lemma EncodedIsDigits(bytes: seq<byte>)
    ensures AllDigits(Encoded(bytes))
    ensures forall i :: 0 <= i < |bytes| ==> Digit(Encoded(bytes)[i]) == Some(bytes[i] % 34)
  {
    forall i | 0 <= i < |bytes| ensures Digit(Encoded(bytes)[i]) == Some(bytes[i] % 34) {
      DigitIsFind(CHARS[bytes[i] % 34]);
    }
  }

  method Encode8(bytes: seq<byte>) returns (chars: string)
    ensures chars == Encoded(bytes)
  {
    chars := "";
    for i := 0 to |bytes|
      invariant chars == Encoded(bytes)[..i]
    {
      var index := bytes[i] % |CHARS|;
      chars := chars + [CHARS[index]];
    }
  }

  /** A buffer of random bytes that makes a valid half. */
  ghost predicate Accepted(bytes: seq<byte>) {
    ValidHalf(Encoded(bytes))
  }

  method TryBuffer(bytes: seq<byte>) returns (half: string, ok: bool)
    ensures half == Encoded(bytes) && (ok <==> Accepted(bytes))
  {
    half := Encode8(bytes);
    ok := ValidateChecksum(half);
  }

  /** One rejection loop. The random source is the sequence of buffers it will deliver; the loop takes the first
      whose half is valid, and uses up no more. None when the source ends before one comes. */
  method GenerateHalf(source: seq<Buffer>) returns (part: Option<string>, used: nat)
    ensures used <= |source|
    ensures part.Some? ==> used > 0 && part.value == Encoded(source[used - 1]) && Accepted(source[used - 1])
    ensures part.Some? ==> forall i :: 0 <= i < used - 1 ==> !Accepted(source[i])
    ensures part.None? <==> forall i :: 0 <= i < |source| ==> !Accepted(source[i])
  {
    used := 0;
    while used < |source|
      invariant used <= |source|
      invariant forall i :: 0 <= i < used ==> !Accepted(source[i])
    {
      var half, ok := TryBuffer(source[used]);
      used := used + 1;
      if ok {
        return Some(half), used;
      }
    }
    part := None;
  }

  /// ## Parsing

  datatype RoomCode = RoomCode(raw: string, networkNamePart: string, secretPart: string)

  function NetworkName(code: RoomCode): string {
    "scaffolding-mc-" + code.networkNamePart
  }

  predicate Group(s: string) {
    |s| == 4 && forall i :: 0 <= i < 4 ==> CodeChar(s[i])
  }

  /** The format's regular expression, anchored at both ends. */
  predicate WellFormed(code: string) {
    && |code| == 21 && code[..2] == PREFIX
    && Group(code[2..6]) && code[6] == '-' && Group(code[7..11]) && code[11] == '-'
    && Group(code[12..16]) && code[16] == '-' && Group(code[17..])
  }

  function Parse(code: string): (r: Option<RoomCode>) {
    if WellFormed(code) then
      Some(RoomCode(code, code[2..6] + "-" + code[7..11], code[12..16] + "-" + code[17..]))
    else None
  }

  /** Two well-formed groups joined by a dash. */
  predicate Part(s: string) {
    |s| == 9 && Group(s[..4]) && s[4] == '-' && Group(s[5..])
  }

  /** A string parses exactly when it is `U/`, a name part, `-` and a secret part, and those are what it parses to;
      the checksum plays no role. */
  lemma ParsesExactly(code: string, name: string, secret: string)
    ensures Part(name) && Part(secret) && code == PREFIX + name + "-" + secret <==>
            Parse(code) == Some(RoomCode(code, name, secret))
  {
    if Part(name) && Part(secret) && code == PREFIX + name + "-" + secret {
      assert code[2..6] == name[..4] && code[7..11] == name[5..];
      assert code[12..16] == secret[..4] && code[17..] == secret[5..];
      assert name == name[..4] + "-" + name[5..] && secret == secret[..4] + "-" + secret[5..];
    }
    if Parse(code) == Some(RoomCode(code, name, secret)) {
      assert name[..4] == code[2..6] && name[5..] == code[7..11];
      assert secret[..4] == code[12..16] && secret[5..] == code[17..];
      assert code == code[..2] + code[2..6] + "-" + code[7..11] + "-" + code[12..16] + "-" + code[17..];
    }
  }

  /** The network name and the secret determine the room code. */
  lemma NameAndSecretDetermineCode(a: string, b: string)
    requires Parse(a).Some? && Parse(b).Some?
    requires NetworkName(Parse(a).value) == NetworkName(Parse(b).value)
    requires Parse(a).value.secretPart == Parse(b).value.secretPart
    ensures a == b
  {
    var x, y := Parse(a).value, Parse(b).value;
    var n := |"scaffolding-mc-"|;
    assert NetworkName(x)[n..] == x.networkNamePart && NetworkName(y)[n..] == y.networkNamePart;
    ParsesExactly(a, x.networkNamePart, x.secretPart);
    ParsesExactly(b, y.networkNamePart, y.secretPart);
  }

  function RawCode(part1: string, part2: string): string
    requires |part1| == 8 && |part2| == 8
  {
    PREFIX + part1[..4] + "-" + part1[4..] + "-" + part2[..4] + "-" + part2[4..]
  }

  lemma RawCodeParses(part1: string, part2: string)
    requires |part1| == 8 && |part2| == 8 && AllDigits(part1) && AllDigits(part2)
    ensures Parse(RawCode(part1, part2)) ==
            Some(RoomCode(RawCode(part1, part2), part1[..4] + "-" + part1[4..], part2[..4] + "-" + part2[4..]))
  {
    forall c | c in part1 || c in part2 ensures CodeChar(c) {
      ClassIsAlphabet(c);
    }
    var raw := RawCode(part1, part2);
    assert raw[..2] == PREFIX;
    assert raw[2..6] == part1[..4] && raw[7..11] == part1[4..];
    assert raw[12..16] == part2[..4] && raw[17..] == part2[4..];
  }

  /** The sixteen code characters of a well-formed code. */
  function Characters(code: string): string
    requires WellFormed(code)
  {
    code[2..6] + code[7..11] + code[12..16] + code[17..]
  }

  /** Buffer `i` is the first of the source that makes a valid half. */
  ghost predicate FirstAccepted(source: seq<Buffer>, i: nat) {
    i < |source| && Accepted(source[i]) && forall k :: 0 <= k < i ==> !Accepted(source[k])
  }

  /** The code is printed from these two halves: the first is its name part, the second its secret part. */
  ghost predicate PrintedFrom(code: RoomCode, first: string, second: string)
    requires |first| == 8 && |second| == 8
  {
    && code.networkNamePart == first[..4] + "-" + first[4..] && code.secretPart == second[..4] + "-" + second[4..]
    && code.raw == "U/" + first[..4] + "-" + first[4..] + "-" + second[..4] + "-" + second[4..]
  }

  /** The code is made of the first valid half of each source. */
  ghost predicate MadeFrom(code: RoomCode, source1: seq<Buffer>, source2: seq<Buffer>, i: nat, j: nat) {
    && FirstAccepted(source1, i) && FirstAccepted(source2, j)
    && PrintedFrom(code, Encoded(source1[i]), Encoded(source2[j]))
  }

  /** Generation from two random sources: the code is printed from the first valid half of each, the first for the
      name, the second for the secret; it parses, and its sixteen characters form a number divisible by 7, as do its
      two halves. None only when a source ends first. */
  method Generate(source1: seq<Buffer>, source2: seq<Buffer>) returns (code: Option<RoomCode>)
    ensures code.Some? <==>
              && (exists i :: 0 <= i < |source1| && Accepted(source1[i]))
              && (exists i :: 0 <= i < |source2| && Accepted(source2[i]))
    ensures code.Some? ==> exists i, j :: MadeFrom(code.value, source1, source2, i, j)
    ensures code.Some? ==> WellFormed(code.value.raw) && Parse(code.value.raw) == code
    ensures code.Some? ==>
              var chars := Characters(code.value.raw);
              ValidHalf(chars) && ValidHalf(chars[..8]) && ValidHalf(chars[8..])
  {
    var part1, used1 := GenerateHalf(source1);
    if part1.None? { return None; }
    var part2, used2 := GenerateHalf(source2);
    if part2.None? { return None; }
    var raw := RawCode(part1.value, part2.value);
    RawCodeParses(part1.value, part2.value);
    code := Parse(raw);
    assert MadeFrom(code.value, source1, source2, used1 - 1, used2 - 1);
    HalvesOfGenerated(part1.value, part2.value);
  }

  lemma CharactersOfRaw(part1: string, part2: string)
    requires |part1| == 8 && |part2| == 8 && AllDigits(part1) && AllDigits(part2)
    ensures WellFormed(RawCode(part1, part2)) && Characters(RawCode(part1, part2)) == part1 + part2
  {
    RawCodeParses(part1, part2);
    var raw := RawCode(part1, part2);
    assert raw[2..6] == part1[..4] && raw[7..11] == part1[4..];
    assert raw[12..16] == part2[..4] && raw[17..] == part2[4..];
    assert part1 == part1[..4] + part1[4..] && part2 == part2[..4] + part2[4..];
  }

  lemma HalvesOfGenerated(part1: string, part2: string)
    requires |part1| == 8 && |part2| == 8 && ValidHalf(part1) && ValidHalf(part2)
    ensures WellFormed(RawCode(part1, part2))
    ensures
      var chars := Characters(RawCode(part1, part2));
      chars[..8] == part1 && chars[8..] == part2 && ValidHalf(chars)
  {
    CharactersOfRaw(part1, part2);
    JoinedHalves(part1, part2);
  }

  lemma JoinedHalves(s: string, t: string)
    requires ValidHalf(s) && ValidHalf(t)
    ensures ValidHalf(s + t)
  {
    ValueAppend(s, t);
    SumOfMultiples(Value(s), Power34(|s|), Value(t));
  }

  lemma {:induction false} ZerosAddNothing(n: nat)
    ensures AllDigits(Zeros(n)) && Alternating(Zeros(n)) == 0
  {
    if n == 0 {
    } else {
      ZerosAddNothing(n - 1);
      assert Zeros(n)[1..] == Zeros(n - 1);
    }
  }

  function Zeros(n: nat): (s: string)
    ensures |s| == n
  {
    seq(n, _ => '0')
  }

  lemma OneIsInvalid()
    ensures AllDigits("1" + Zeros(7)) && !ValidHalf("1" + Zeros(7))
  {
    var half := "1" + Zeros(7);
    ZerosAddNothing(7);
    assert half[1..] == Zeros(7);
    ValidByAlternating(half);
  }

  /** Parsing does not check the checksum: here is a code that parses although no generator would give it. */
  lemma ParseIgnoresChecksum() returns (code: string)
    ensures Parse(code).Some? && WellFormed(code) && !ValidHalf(Characters(code)[..8])
  {
    OneIsInvalid();
    ZerosAddNothing(8);
    code := RawCode("1" + Zeros(7), Zeros(8));
    RawCodeParses("1" + Zeros(7), Zeros(8));
    CharactersOfRaw("1" + Zeros(7), Zeros(8));
    assert Characters(code)[..8] == "1" + Zeros(7);
  }
}
