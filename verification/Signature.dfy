/** The text form of Ed25519 signatures: base64 with the URL-safe alphabet and without
    padding (section 5 of RFC 4648). */
module Signature {
  import opened Basics

  newtype Byte = x: int | 0 <= x < 256

  type Sextet = x: int | 0 <= x < 64

  function Letter(s: Sextet): char {
    if s < 26 then ('A' as int + s) as char
    else if s < 52 then ('a' as int + s - 26) as char
    else if s < 62 then ('0' as int + s - 52) as char
    else if s == 62 then '-'
    else '_'
  }

  predicate InAlphabet(c: char) {
    'A' <= c <= 'Z' || 'a' <= c <= 'z' || '0' <= c <= '9' || c == '-' || c == '_'
  }

  function Value(c: char): Sextet
    requires InAlphabet(c)
  {
    if 'A' <= c <= 'Z' then c as int - 'A' as int
    else if 'a' <= c <= 'z' then c as int - 'a' as int + 26
    else if '0' <= c <= '9' then c as int - '0' as int + 52
    else if c == '-' then 62
    else 63
  }

  /** Three bytes as four letters, and back. */
  function Letters(x: Byte, y: Byte, z: Byte): string {
    [Letter(x as int / 4), Letter(x as int % 4 * 16 + y as int / 16),
     Letter(y as int % 16 * 4 + z as int / 64), Letter(z as int % 64)]
  }

  function Bytes(p: char, q: char, r: char, s: char): seq<Byte>
    requires InAlphabet(p) && InAlphabet(q) && InAlphabet(r) && InAlphabet(s)
  {
    [(Value(p) * 4 + Value(q) / 16) as Byte, (Value(q) % 16 * 16 + Value(r) / 4) as Byte,
     (Value(r) % 4 * 64 + Value(s)) as Byte]
  }

  /** The padded encoding. */
  function Encode(b: seq<Byte>): string {
    if |b| == 0 then ""
    else if |b| == 1 then
      [Letter(b[0] as int / 4), Letter(b[0] as int % 4 * 16)] + "=="
    else if |b| == 2 then
      [Letter(b[0] as int / 4), Letter(b[0] as int % 4 * 16 + b[1] as int / 16), Letter(b[1] as int % 16 * 4)] + "="
    else
      Letters(b[0], b[1], b[2]) + Encode(b[3..])
  }

  /** Text that the decoder accepts: whole groups of four, padding in the last group only. */
  predicate Decodable(t: string) {
    if |t| == 0 then true
    else if |t| < 4 then false
    else if |t| == 4 && t[3] == '=' then
      InAlphabet(t[0]) && InAlphabet(t[1]) && (t[2] == '=' || InAlphabet(t[2]))
    else
      (forall i :: 0 <= i < 4 ==> InAlphabet(t[i])) && Decodable(t[4..])
  }

  function Decode(t: string): seq<Byte>
    requires Decodable(t)
  {
    if |t| == 0 then []
    else if |t| == 4 && t[3] == '=' then
      var first := (Value(t[0]) * 4 + Value(t[1]) / 16) as Byte;
      if t[2] == '=' then [first]
      else [first, (Value(t[1]) % 16 * 16 + Value(t[2]) / 4) as Byte]
    else
      Bytes(t[0], t[1], t[2], t[3]) + Decode(t[4..])
  }

  /** Python's rstrip of the padding character. */
  function StripPadding(t: string): string {
    if t != [] && t[|t| - 1] == '=' then StripPadding(t[..|t| - 1]) else t
  }

  /** The signature text that a signed package carries. */
  function SignatureText(signature: seq<Byte>): string {
    StripPadding(Encode(signature))
  }

  predicate IsSignatureText(t: string) {
    |t| == 86 && forall c :: c in t ==> InAlphabet(c)
  }

  // ----- The arithmetic, over plain integers -----

  predicate InByte(x: int) {
    0 <= x < 256
  }

  predicate InSextet(x: int) {
    0 <= x < 64
  }

  lemma Join4(a: int, b: int)
    requires 0 <= b < 4
    ensures (a * 4 + b) / 4 == a && (a * 4 + b) % 4 == b
  {
  }

  lemma Join16(a: int, b: int)
    requires 0 <= b < 16
    ensures (a * 16 + b) / 16 == a && (a * 16 + b) % 16 == b
  {
  }

  lemma Join64(a: int, b: int)
    requires 0 <= b < 64
    ensures (a * 64 + b) / 64 == a && (a * 64 + b) % 64 == b
  {
  }

  /** Three bytes cut into four sextets can be put together again. */
  lemma CutAndJoin(x: int, y: int, z: int)
    requires InByte(x) && InByte(y) && InByte(z)
    ensures var p, q, r, s := x / 4, x % 4 * 16 + y / 16, y % 16 * 4 + z / 64, z % 64;
      && InSextet(p) && InSextet(q) && InSextet(r) && InSextet(s)
      && p * 4 + q / 16 == x && q % 16 * 16 + r / 4 == y && r % 4 * 64 + s == z
  {
    Join16(x % 4, y / 16);
    Join4(y % 16, z / 64);
  }

  /** Four sextets joined into three bytes can be cut apart again. */
  lemma JoinAndCut(p: int, q: int, r: int, s: int)
    requires InSextet(p) && InSextet(q) && InSextet(r) && InSextet(s)
    ensures var x, y, z := p * 4 + q / 16, q % 16 * 16 + r / 4, r % 4 * 64 + s;
      && InByte(x) && InByte(y) && InByte(z)
      && x / 4 == p && x % 4 * 16 + y / 16 == q && y % 16 * 4 + z / 64 == r && z % 64 == s
  {
    Join4(p, q / 16);
    Join16(q % 16, r / 4);
    Join64(r % 4, s);
  }

  // ----- Letters -----

  lemma LetterRoundTrip(s: Sextet)
    ensures InAlphabet(Letter(s)) && Value(Letter(s)) == s
  {
  }

  lemma ValueRoundTrip(c: char)
    requires InAlphabet(c)
    ensures Letter(Value(c)) == c
  {
  }

  /** The bytes of four letters whose sextets are known. */
  lemma BytesOfLetters(p: Sextet, q: Sextet, r: Sextet, s: Sextet)
    ensures InAlphabet(Letter(p)) && InAlphabet(Letter(q)) && InAlphabet(Letter(r)) && InAlphabet(Letter(s))
    ensures Bytes(Letter(p), Letter(q), Letter(r), Letter(s))
      == [(p * 4 + q / 16) as Byte, (q % 16 * 16 + r / 4) as Byte, (r % 4 * 64 + s) as Byte]
  {
    hide Letter, Value, InAlphabet;
    LetterRoundTrip(p);
    LetterRoundTrip(q);
    LetterRoundTrip(r);
    LetterRoundTrip(s);
  }

  lemma LettersRoundTrip(x: Byte, y: Byte, z: Byte)
    ensures var t := Letters(x, y, z);
      && |t| == 4 && InAlphabet(t[0]) && InAlphabet(t[1]) && InAlphabet(t[2]) && InAlphabet(t[3])
      && Bytes(t[0], t[1], t[2], t[3]) == [x, y, z]
  {
    hide Letter, Value, InAlphabet, Bytes;
    CutAndJoin(x as int, y as int, z as int);
    BytesOfLetters(x as int / 4, x as int % 4 * 16 + y as int / 16, y as int % 16 * 4 + z as int / 64, z as int % 64);
  }

  lemma BytesRoundTrip(p: char, q: char, r: char, s: char)
    requires InAlphabet(p) && InAlphabet(q) && InAlphabet(r) && InAlphabet(s)
    ensures var b := Bytes(p, q, r, s); Letters(b[0], b[1], b[2]) == [p, q, r, s]
  {
    hide Letter, Value, InAlphabet;
    JoinAndCut(Value(p), Value(q), Value(r), Value(s));
    ValueRoundTrip(p);
    ValueRoundTrip(q);
    ValueRoundTrip(r);
    ValueRoundTrip(s);
  }

  // ----- From bytes to text and back -----

  lemma OneByte(x: Byte)
    ensures var t := Encode([x]);
      && |t| == 4 && InAlphabet(t[0]) && InAlphabet(t[1]) && t[2] == '=' && t[3] == '='
      && Decodable(t) && Decode(t) == [x]
  {
    hide Letter, Value, InAlphabet;
    CutAndJoin(x as int, 0, 0);
    LetterRoundTrip(x as int / 4);
    LetterRoundTrip(x as int % 4 * 16);
  }

  lemma ThreeLetters(p: Sextet, q: Sextet, r: Sextet)
    ensures var t := [Letter(p), Letter(q), Letter(r)] + "=";
      && Decodable(t) && Decode(t) == [(p * 4 + q / 16) as Byte, (q % 16 * 16 + r / 4) as Byte]
  {
    hide Letter, Value;
    LetterRoundTrip(p);
    LetterRoundTrip(q);
    LetterRoundTrip(r);
    assert Letter(r) != '=';
  }

  lemma TwoBytes(x: Byte, y: Byte)
    ensures Decodable(Encode([x, y])) && Decode(Encode([x, y])) == [x, y]
  {
    hide Letter, Value, InAlphabet, Decodable, Decode;
    CutAndJoin(x as int, y as int, 0);
    ThreeLetters(x as int / 4, x as int % 4 * 16 + y as int / 16, y as int % 16 * 4);
  }

  /** A group of four letters before other text. */
  lemma FourLetters(group: string, rest: string)
    requires |group| == 4 && (forall i :: 0 <= i < 4 ==> InAlphabet(group[i])) && Decodable(rest)
    ensures Decodable(group + rest)
    ensures Decode(group + rest) == Bytes(group[0], group[1], group[2], group[3]) + Decode(rest)
  {
    hide Bytes, Letter, Value;
    var t := group + rest;
    assert t[4..] == rest;
    assert t[0] == group[0] && t[1] == group[1] && t[2] == group[2] && t[3] == group[3];
    assert t[3] != '=';
  }

  /** Three bytes before others. */
  lemma ThreeBytes(x: Byte, y: Byte, z: Byte, rest: seq<Byte>)
    ensures Encode([x, y, z] + rest) == Letters(x, y, z) + Encode(rest)
  {
    hide Letters, Letter;
    var b := [x, y, z] + rest;
    assert b[0] == x && b[1] == y && b[2] == z && b[3..] == rest;
  }

  lemma GroupFirst(x: Byte, y: Byte, z: Byte, b: seq<Byte>, rest: string)
    requires Decodable(rest) && Decode(rest) == b
    ensures Decodable(Letters(x, y, z) + rest) && Decode(Letters(x, y, z) + rest) == [x, y, z] + b
  {
    hide Letters, Bytes, Decodable, Decode, InAlphabet, Letter, Value;
    LettersRoundTrip(x, y, z);
    FourLetters(Letters(x, y, z), rest);
  }

  lemma {:induction false} EncodeRoundTrip(b: seq<Byte>)
    ensures Decodable(Encode(b)) && Decode(Encode(b)) == b
  {
    hide Letters, Bytes, InAlphabet, Letter, Value;
    if |b| == 1 {
      OneByte(b[0]);
      assert b == [b[0]];
    } else if |b| == 2 {
      TwoBytes(b[0], b[1]);
      assert b == [b[0], b[1]];
    } else if |b| > 2 {
      assert b == [b[0], b[1], b[2]] + b[3..];
      EncodeRoundTrip(b[3..]);
      ThreeBytes(b[0], b[1], b[2], b[3..]);
      GroupFirst(b[0], b[1], b[2], b[3..], Encode(b[3..]));
    }
  }

  ghost predicate PaddedTwice(t: string) {
    && |t| >= 2 && t[|t| - 2..] == "=="
    && forall i :: 0 <= i < |t| - 2 ==> InAlphabet(t[i])
  }

  lemma Prefixed(group: string, rest: string)
    requires |group| == 4 && (forall i :: 0 <= i < 4 ==> InAlphabet(group[i])) && PaddedTwice(rest)
    ensures PaddedTwice(group + rest)
  {
    hide InAlphabet;
    var t := group + rest;
    assert t[|t| - 2..] == rest[|rest| - 2..];
    assert forall i :: 4 <= i < |t| ==> t[i] == rest[i - 4];
  }

  /** One byte left over after whole groups of three: two letters and two pad characters. */
  lemma {:induction false} OneLeftOver(b: seq<Byte>)
    requires |b| % 3 == 1
    ensures |Encode(b)| == 4 * (|b| / 3) + 4
    ensures PaddedTwice(Encode(b))
  {
    hide Letter, Value, InAlphabet, Decodable, Decode, Bytes;
    if |b| == 1 {
      OneByte(b[0]);
      assert b == [b[0]];
    } else {
      assert b == [b[0], b[1], b[2]] + b[3..];
      OneLeftOver(b[3..]);
      ThreeBytes(b[0], b[1], b[2], b[3..]);
      hide Encode, PaddedTwice;
      LettersRoundTrip(b[0], b[1], b[2]);
      Prefixed(Letters(b[0], b[1], b[2]), Encode(b[3..]));
    }
  }

  lemma StripTwo(t: string)
    requires |t| >= 2 && InAlphabet(t[|t| - 1])
    ensures StripPadding(t + "==") == t
  {
    assert (t + "==")[..|t| + 1] == t + "=";
    assert (t + "=")[..|t|] == t;
    assert StripPadding(t + "==") == StripPadding(t + "=") == StripPadding(t);
  }

  lemma SignatureEncoding(signature: seq<Byte>)
    requires |signature| == 64
    ensures IsSignatureText(SignatureText(signature)) && SignatureText(signature) + "==" == Encode(signature)
  {
    hide Encode, StripPadding, InAlphabet;
    OneLeftOver(signature);
    var t := Encode(signature);
    assert t == t[..86] + "==";
    StripTwo(t[..86]);
  }

  /** Stripping the padding loses nothing: putting it back decodes to the signature. */
  lemma SignatureRoundTrip(signature: seq<Byte>)
    requires |signature| == 64
    ensures IsSignatureText(SignatureText(signature))
    ensures Decodable(SignatureText(signature) + "==")
    ensures Decode(SignatureText(signature) + "==") == signature
  {
    hide *;
    SignatureEncoding(signature);
    EncodeRoundTrip(signature);
  }

  // ----- The text as a number -----

  /** The alphabet of table 2 of RFC 4648: three runs of letters and digits, a hyphen and an
      underscore. */
  lemma AlphabetIsUrlSafe(s: Sextet)
    ensures Letter(0) == 'A' && Letter(26) == 'a' && Letter(52) == '0' && Letter(62) == '-' && Letter(63) == '_'
    ensures s < 25 || 26 <= s < 51 || 52 <= s < 61 ==> Letter(s + 1) as int == Letter(s) as int + 1
  {
  }

  predicate InAlphabetAll(t: string) {
    forall c :: c in t ==> InAlphabet(c)
  }

  /** The letters as digits to base 64, after those that make up the given number. */
  function Number64(before: nat, t: string): nat
    requires InAlphabetAll(t)
    decreases |t|
  {
    if t == "" then before
    else
      assert t[0] in t;
      Number64(before * 64 + Value(t[0]), t[1..])
  }

  /** The bytes as digits to base 256. */
  function Number256(before: nat, b: seq<Byte>): nat
    decreases |b|
  {
    if b == [] then before else Number256(before * 256 + b[0] as nat, b[1..])
  }

  lemma FourLetterNumber(before: nat, p: char, q: char, r: char, s: char, rest: string)
    requires InAlphabet(p) && InAlphabet(q) && InAlphabet(r) && InAlphabet(s) && InAlphabetAll(rest)
    ensures InAlphabetAll([p, q, r, s] + rest)
    ensures Number64(before, [p, q, r, s] + rest)
      == Number64((((before * 64 + Value(p)) * 64 + Value(q)) * 64 + Value(r)) * 64 + Value(s), rest)
  {
    hide Value, InAlphabet, Number64;
    var a := before * 64 + Value(p);
    var b := a * 64 + Value(q);
    OneDigit(b * 64 + Value(r), s, rest);
    OneDigit(b, r, [s] + rest);
    assert [r] + ([s] + rest) == [r, s] + rest;
    OneDigit(a, q, [r, s] + rest);
    assert [q] + ([r, s] + rest) == [q, r, s] + rest;
    OneDigit(before, p, [q, r, s] + rest);
    assert [p] + ([q, r, s] + rest) == [p, q, r, s] + rest;
  }

  lemma OneDigit(before: nat, c: char, rest: string)
    requires InAlphabet(c) && InAlphabetAll(rest)
    ensures InAlphabetAll([c] + rest) && Number64(before, [c] + rest) == Number64(before * 64 + Value(c), rest)
  {
    hide Value, InAlphabet;
    assert ([c] + rest)[1..] == rest;
  }

  lemma ThreeDigits(before: nat, x: Byte, y: Byte, z: Byte, rest: seq<Byte>)
    ensures Number256(before, [x, y, z] + rest) == Number256(((before * 256 + x as nat) * 256 + y as nat) * 256 + z as nat, rest)
  {
    var t := [x, y, z] + rest;
    assert t[1..] == [y, z] + rest && t[1..][1..] == [z] + rest && t[1..][1..][1..] == rest;
    assert Number256(before, t) == Number256(before * 256 + x as nat, [y, z] + rest);
    assert Number256(before * 256 + x as nat, [y, z] + rest) == Number256((before * 256 + x as nat) * 256 + y as nat, [z] + rest);
  }

  lemma SameGroup(before: nat, x: int, y: int, z: int)
    requires InByte(x) && InByte(y) && InByte(z)
    ensures (((before * 64 + x / 4) * 64 + (x % 4 * 16 + y / 16)) * 64 + (y % 16 * 4 + z / 64)) * 64 + z % 64
      == ((before * 256 + x) * 256 + y) * 256 + z
  {
  }

  lemma GroupNumber(before: nat, x: Byte, y: Byte, z: Byte, rest: string)
    requires InAlphabetAll(rest)
    ensures InAlphabetAll(Letters(x, y, z) + rest)
    ensures Number64(before, Letters(x, y, z) + rest) == Number64(((before * 256 + x as nat) * 256 + y as nat) * 256 + z as nat, rest)
  {
    hide Letter, Value, InAlphabet, Number64;
    CutAndJoin(x as int, y as int, z as int);
    SameGroup(before, x as int, y as int, z as int);
    var p, q, r, s := x as int / 4, x as int % 4 * 16 + y as int / 16, y as int % 16 * 4 + z as int / 64, z as int % 64;
    LetterRoundTrip(p);
    LetterRoundTrip(q);
    LetterRoundTrip(r);
    LetterRoundTrip(s);
    FourLetterNumber(before, Letter(p), Letter(q), Letter(r), Letter(s), rest);
  }

  lemma LastNumber(before: nat, x: Byte)
    ensures var t := [Letter(x as int / 4), Letter(x as int % 4 * 16)];
      InAlphabetAll(t) && Number64(before, t) == 16 * (before * 256 + x as nat)
  {
    hide Letter, Value, InAlphabet;
    LetterRoundTrip(x as int / 4);
    LetterRoundTrip(x as int % 4 * 16);
    var p, q := Letter(x as int / 4), Letter(x as int % 4 * 16);
    OneDigit(before * 64 + x as nat / 4, q, "");
    OneDigit(before, p, [q]);
    assert [p] + [q] == [p, q] && [q] + "" == [q];
  }

  /** Without its two pad characters the text spells the number of the bytes, times sixteen for
      the four spare bits. */
  lemma {:induction false} EncodedNumber(before: nat, b: seq<Byte>) returns (t: string)
    requires |b| % 3 == 1
    decreases |b|
    ensures Encode(b) == t + "==" && InAlphabetAll(t) && Number64(before, t) == 16 * Number256(before, b)
  {
    hide Letter, Value, InAlphabet, Letters, Number64;
    if |b| == 1 {
      LastNumber(before, b[0]);
      assert b == [b[0]] && b[1..] == [];
      t := [Letter(b[0] as int / 4), Letter(b[0] as int % 4 * 16)];
    } else {
      var x, y, z := b[0], b[1], b[2];
      var rest := EncodedNumber(((before * 256 + x as nat) * 256 + y as nat) * 256 + z as nat, b[3..]);
      GroupNumber(before, x, y, z, rest);
      assert b == [x, y, z] + b[3..];
      ThreeBytes(x, y, z, b[3..]);
      t := Letters(x, y, z) + rest;
      assert t + "==" == Letters(x, y, z) + (rest + "==");
      ThreeDigits(before, x, y, z, b[3..]);
    }
  }

  /** The signature text is the signature as one number in base 64, most significant digit first. */
  lemma SignatureTextIsBase64(signature: seq<Byte>)
    requires |signature| == 64
    ensures InAlphabetAll(SignatureText(signature))
    ensures Number64(0, SignatureText(signature)) == 16 * Number256(0, signature)
  {
    hide Encode, StripPadding, InAlphabet, Number64, Number256;
    var t := EncodedNumber(0, signature);
    SignatureEncoding(signature);
    assert SignatureText(signature) == (SignatureText(signature) + "==")[..|t|] == t;
  }

  // ----- From text to bytes and back -----

  /** The text with the four spare bits of its last letter cleared. */
  function Canonical(t: string): string
    requires t != [] && InAlphabet(t[|t| - 1])
  {
    t[..|t| - 1] + [Letter(Value(t[|t| - 1]) / 16 * 16)]
  }

  lemma TwoLetters(p: char, q: char)
    requires InAlphabet(p) && InAlphabet(q)
    ensures var t := [p, q] + "==";
      && Decodable(t) && |Decode(t)| == 1 && Encode(Decode(t)) == Canonical([p, q]) + "=="
  {
    hide Letter, Value, InAlphabet;
    JoinAndCut(Value(p), Value(q), 0, 0);
    Join4(Value(p), Value(q) / 16);
    ValueRoundTrip(p);
    var t := [p, q] + "==";
    assert t[0] == p && t[1] == q && t[2] == '=' && t[3] == '=';
    assert Decode(t) == [(Value(p) * 4 + Value(q) / 16) as Byte];
    assert [p, q][..1] == [p];
  }

  /** Any letters, two more than whole groups of four, decode once padded, and encoding the
      bytes gives the letters back but for the spare bits of the last one. */
  lemma {:induction false} Reencoded(t: string)
    requires |t| % 4 == 2 && forall i :: 0 <= i < |t| ==> InAlphabet(t[i])
    ensures Decodable(t + "==") && |Decode(t + "==")| == |t| / 4 * 3 + 1
    ensures Encode(Decode(t + "==")) == Canonical(t) + "=="
  {
    hide Letter, Value, InAlphabet, Bytes, Letters, Decodable, Decode, Encode;
    if |t| == 2 {
      assert t == [t[0], t[1]];
      TwoLetters(t[0], t[1]);
    } else {
      var group, rest := t[..4], t[4..];
      assert t + "==" == group + (rest + "==");
      Reencoded(rest);
      FourLetters(group, rest + "==");
      RegroupedBytes(group, Decode(rest + "=="));
      assert Canonical(t) == group + Canonical(rest) by {
        assert t[..|t| - 1] == group + rest[..|rest| - 1];
      }
    }
  }

  lemma RegroupedBytes(group: string, more: seq<Byte>)
    requires |group| == 4 && forall i :: 0 <= i < 4 ==> InAlphabet(group[i])
    ensures |Bytes(group[0], group[1], group[2], group[3]) + more| == 3 + |more|
    ensures Encode(Bytes(group[0], group[1], group[2], group[3]) + more) == group + Encode(more)
  {
    hide Letter, Value, InAlphabet, Letters, Encode;
    var b := Bytes(group[0], group[1], group[2], group[3]);
    BytesRoundTrip(group[0], group[1], group[2], group[3]);
    ThreeBytes(b[0], b[1], b[2], more);
    assert b == [b[0], b[1], b[2]];
    assert group == [group[0], group[1], group[2], group[3]];
  }

  /** Every text of the right shape decodes, and re-encoding gives its canonical form. */
  lemma SignatureTextDecodes(t: string)
    requires IsSignatureText(t)
    ensures Decodable(t + "==") && |Decode(t + "==")| == 64
    ensures SignatureText(Decode(t + "==")) == Canonical(t)
  {
    hide Encode, Decode, Decodable, StripPadding, Letter, Value, InAlphabet;
    assert forall i :: 0 <= i < |t| ==> t[i] in t;
    Reencoded(t);
    CanonicalShape(t);
    StripTwo(Canonical(t));
  }

  lemma CanonicalShape(t: string)
    requires t != [] && InAlphabet(t[|t| - 1])
    ensures var c, last := Canonical(t), |t| - 1;
      && |c| == |t| && c[..last] == t[..last] && InAlphabet(c[last])
      && c[last] == Letter(Value(t[last]) / 16 * 16)
  {
    hide Letter, Value, InAlphabet;
    LetterRoundTrip(Value(t[|t| - 1]) / 16 * 16);
  }

  lemma SpareBits(c: char, d: char)
    requires InAlphabet(c) && InAlphabet(d)
    ensures Letter(Value(c) / 16 * 16) == Letter(Value(d) / 16 * 16) <==> Value(c) / 16 == Value(d) / 16
    ensures Letter(Value(c) / 16 * 16) == c <==> Value(c) % 16 == 0
  {
    hide Letter, Value, InAlphabet;
    LetterRoundTrip(Value(c) / 16 * 16);
    LetterRoundTrip(Value(d) / 16 * 16);
    ValueRoundTrip(c);
    Join16(Value(c) / 16, 0);
    Join16(Value(d) / 16, 0);
  }

  lemma SameCanonical(t: string, u: string)
    requires |t| == |u| == 86 && InAlphabet(t[85]) && InAlphabet(u[85])
    ensures Canonical(t) == Canonical(u) <==> t[..85] == u[..85] && Value(t[85]) / 16 == Value(u[85]) / 16
  {
    hide Canonical, Letter, Value, InAlphabet;
    CanonicalShape(t);
    CanonicalShape(u);
    SpareBits(t[85], u[85]);
    var c, d := Canonical(t), Canonical(u);
    assert c == c[..85] + [c[85]] && d == d[..85] + [d[85]];
  }

  /** Two texts of the right shape stand for the same signature exactly if they agree but
      for the four spare bits of their last letters. */
  lemma SameSignature(t: string, u: string)
    requires IsSignatureText(t) && IsSignatureText(u)
    ensures Decodable(t + "==") && Decodable(u + "==")
    ensures Decode(t + "==") == Decode(u + "==")
      <==> t[..85] == u[..85] && Value(t[85]) / 16 == Value(u[85]) / 16
  {
    hide Encode, Decode, Decodable, SignatureText, Canonical, Letter, Value, InAlphabet;
    assert t[85] in t && u[85] in u;
    SignatureTextDecodes(t);
    SignatureTextDecodes(u);
    SignatureRoundTrip(Decode(t + "=="));
    SignatureRoundTrip(Decode(u + "=="));
    SameCanonical(t, u);
  }

  /** A text of the right shape is the one its signature is written as exactly if those bits
      are clear. */
  lemma SignatureTextIsCanonical(t: string)
    requires IsSignatureText(t)
    ensures Decodable(t + "==")
    ensures SignatureText(Decode(t + "==")) == t <==> Value(t[85]) % 16 == 0
  {
    hide Encode, Decode, Decodable, SignatureText, Canonical, Letter, Value, InAlphabet;
    assert t[85] in t;
    SignatureTextDecodes(t);
    CanonicalShape(t);
    SpareBits(t[85], t[85]);
    var c := Canonical(t);
    assert c == c[..85] + [c[85]] && t == t[..85] + [t[85]];
  }

  /** So different texts of the right shape can stand for one signature. */
  lemma SignatureTextIsNotUnique()
    ensures var t, u := seq(86, _ => 'A'), seq(85, _ => 'A') + "B";
      && IsSignatureText(t) && IsSignatureText(u) && t != u
      && Decodable(t + "==") && Decodable(u + "==") && Decode(t + "==") == Decode(u + "==")
  {
    hide Decode, Decodable;
    var t, u := seq(86, _ => 'A'), seq(85, _ => 'A') + "B";
    assert t[85] == 'A' && u[85] == 'B';
    SameSignature(t, u);
  }
}
