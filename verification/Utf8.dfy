/** Well-formed UTF-8 is what encoding Unicode scalar values gives, as in section 3 of RFC 3629. */
module Utf8 {
  import opened Common
  import opened LspFraming
  import opened LspProperties

  type Scalar = c: int | 0 <= c < 0xD800 || 0xE000 <= c <= 0x10FFFF

  function Byte(n: int): char
    requires 0 <= n < 256
  {
    n as char
  }

  /** A continuation byte with six bits. */
  function Tail(n: int): char {
    Byte(0x80 + n % 64)
  }

  function Encode(c: Scalar): string {
    if c < 0x80 then [Byte(c)]
    else if c < 0x800 then [Byte(0xC0 + c / 64), Tail(c)]
    else if c < 0x1_0000 then [Byte(0xE0 + c / 4096), Tail(c / 64), Tail(c)]
    else [Byte(0xF0 + c / 262144), Tail(c / 4096), Tail(c / 64), Tail(c)]
  }

  function EncodeAll(codes: seq<Scalar>): string {
    if codes == [] then "" else Encode(codes[0]) + EncodeAll(codes[1..])
  }

  lemma EncodeIsOneChar(c: Scalar)
    ensures CharLength(Encode(c)) == |Encode(c)| > 0
  {
  }

  function Bits(s: string, i: nat): int
    requires i < |s|
  {
    s[i] as int - 0x80
  }

  lemma TwoBytes(s: string) returns (c: Scalar)
    requires CharLength(s) == 2
    ensures Encode(c) == s[..2]
  {
    c := (s[0] as int - 0xC0) * 64 + Bits(s, 1);
    assert c / 64 == s[0] as int - 0xC0 && c % 64 == Bits(s, 1);
  }

  lemma ThreeBytes(s: string) returns (c: Scalar)
    requires CharLength(s) == 3
    ensures Encode(c) == s[..3]
  {
    var top := (s[0] as int - 0xE0) * 64 + Bits(s, 1);
    assert 0x20 <= top && (top < 0x360 || 0x380 <= top);
    assert top / 64 == s[0] as int - 0xE0 && top % 64 == Bits(s, 1);
    c := top * 64 + Bits(s, 2);
    assert c / 64 == top && c % 64 == Bits(s, 2) && c / 4096 == top / 64;
  }

  lemma FourBytes(s: string) returns (c: Scalar)
    requires CharLength(s) == 4
    ensures Encode(c) == s[..4]
  {
    var high := (s[0] as int - 0xF0) * 64 + Bits(s, 1);
    assert 0x10 <= high < 0x110;
    assert high / 64 == s[0] as int - 0xF0 && high % 64 == Bits(s, 1);
    var top := high * 64 + Bits(s, 2);
    assert top / 64 == high && top % 64 == Bits(s, 2) && top / 4096 == high / 64;
    c := top * 64 + Bits(s, 3);
    assert c / 64 == top && c % 64 == Bits(s, 3) && c / 4096 == high && c / 262144 == high / 64;
  }

  /** A well-formed character is the encoding of a scalar value. */
  lemma CharIsEncoded(s: string) returns (c: Scalar)
    requires CharLength(s) > 0
    ensures Encode(c) == s[..CharLength(s)]
  {
    var n := CharLength(s);
    if n == 1 {
      c := s[0] as int;
    } else if n == 2 {
      c := TwoBytes(s);
    } else if n == 3 {
      c := ThreeBytes(s);
    } else {
      c := FourBytes(s);
    }
  }

  lemma {:induction false} EncodedIsValid(codes: seq<Scalar>)
    ensures ValidUtf8(EncodeAll(codes))
    decreases |codes|
  {
    if codes != [] {
      var c, rest := Encode(codes[0]), EncodeAll(codes[1..]);
      EncodeIsOneChar(codes[0]);
      CharLengthExtends(c, rest);
      assert (c + rest)[|c|..] == rest;
      EncodedIsValid(codes[1..]);
      ValidStep(c + rest, |c|);
    }
  }

  lemma {:induction false} ValidIsEncoded(s: string) returns (codes: seq<Scalar>)
    requires ValidUtf8(s)
    ensures EncodeAll(codes) == s
    decreases |s|
  {
    if s == [] {
      codes := [];
    } else {
      var n := FirstChar(s);
      var c := CharIsEncoded(s);
      var rest := ValidIsEncoded(s[n..]);
      codes := [c] + rest;
      assert codes[1..] == rest && s[..n] + s[n..] == s;
    }
  }

  /** A byte sequence is accepted as UTF-8 if and only if it encodes some text. */
  lemma ValidIffEncoded(s: string)
    ensures ValidUtf8(s) <==> exists codes: seq<Scalar> :: EncodeAll(codes) == s
  {
    if ValidUtf8(s) {
      var codes := ValidIsEncoded(s);
    }
    if codes: seq<Scalar> :| EncodeAll(codes) == s {
      EncodedIsValid(codes);
    }
  }

  /** The scalar values with the Unicode property White_Space. */
  predicate IsWhite(c: Scalar) {
    || 0x09 <= c <= 0x0D || c == 0x20 || c == 0x85 || c == 0xA0 || c == 0x1680
    || 0x2000 <= c <= 0x200A || c == 0x2028 || c == 0x2029 || c == 0x202F || c == 0x205F || c == 0x3000
  }

  lemma TwoByteSpace(c: Scalar)
    requires 0x80 <= c < 0x800
    ensures Space2(Encode(c)[0], Encode(c)[1]) <==> IsWhite(c)
  {
    assert c == 64 * (c / 64) + c % 64;
  }

  lemma ThreeByteSpace(c: Scalar)
    requires 0x800 <= c < 0x1_0000
    ensures Space3(Encode(c)[0], Encode(c)[1], Encode(c)[2]) <==> IsWhite(c)
  {
    assert c / 4096 == (c / 64) / 64;
    assert c == 4096 * (c / 4096) + 64 * ((c / 64) % 64) + c % 64;
  }

  /** A character is trimmed, at either end, if and only if it is white space. */
  lemma TrimmedIffWhite(c: Scalar)
    ensures SpaceAtStart(Encode(c)) == SpaceAtEnd(Encode(c)) == if IsWhite(c) then |Encode(c)| else 0
  {
    if 0x80 <= c < 0x800 {
      TwoByteSpace(c);
    } else if 0x800 <= c < 0x1_0000 {
      ThreeByteSpace(c);
    }
  }
}
