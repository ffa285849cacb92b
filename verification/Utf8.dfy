// What text is: the bytes that ValidUtf8 accepts are exactly the encodings of sequences of Unicode
// scalar values (section 3 of RFC 3629).
module Utf8 {
  import opened Types

  /** A code point that is not a surrogate. */
  predicate Scalar(cp: nat) {
    cp < 0xD800 || 0xE000 <= cp < 0x11_0000
  }

  predicate Scalars(cps: seq<nat>) {
    forall i | 0 <= i < |cps| :: Scalar(cps[i])
  }

  function Tail(n: nat): Byte {
    (0x80 + n % 64) as Byte
  }

  /** The shortest form of a scalar value, of one to four bytes. */
  function Encode(cp: nat): (b: Bytes)
    requires Scalar(cp)
    ensures b != []
  {
    if cp < 0x80 then [cp as Byte]
    else if cp < 0x800 then [(0xC0 + cp / 64) as Byte, Tail(cp)]
    else if cp < 0x1_0000 then [(0xE0 + cp / 64 / 64) as Byte, Tail(cp / 64), Tail(cp)]
    else [(0xF0 + cp / 64 / 64 / 64) as Byte, Tail(cp / 64 / 64), Tail(cp / 64), Tail(cp)]
  }

  function EncodeAll(cps: seq<nat>): Bytes
    requires Scalars(cps)
  {
    if cps == [] then [] else Encode(cps[0]) + EncodeAll(cps[1..])
  }

  /** Six more bits, of a continuation byte, after those of n. */
  function Append(n: nat, b: Byte): nat {
    n * 64 + b as nat % 64
  }

  /** The scalar value whose encoding starts b. */
  function Decode(b: Bytes): nat
    requires CharLength(b) != 0
  {
    var n := CharLength(b);
    if n == 1 then b[0] as nat
    else if n == 2 then Append(b[0] as nat - 0xC0, b[1])
    else if n == 3 then Append(Append(b[0] as nat - 0xE0, b[1]), b[2])
    else Append(Append(Append(b[0] as nat - 0xF0, b[1]), b[2]), b[3])
  }

  function DecodeAll(b: Bytes): seq<nat>
    requires ValidUtf8(b)
  {
    if b == [] then [] else [Decode(b)] + DecodeAll(b[CharLength(b)..])
  }

  predicate IsTail(b: Byte) {
    0x80 <= b <= 0xBF
  }

  lemma AppendTail(n: nat, b: Byte)
    requires IsTail(b)
    ensures Append(n, b) / 64 == n && Tail(Append(n, b)) == b && 64 * n <= Append(n, b) < 64 * n + 64
  {
  }

  lemma TailAppends(n: nat)
    ensures IsTail(Tail(n)) && Append(n / 64, Tail(n)) == n
  {
  }

  lemma TwoBytes(b0: Byte, b1: Byte)
    requires 0xC2 <= b0 <= 0xDF && IsTail(b1)
    ensures var cp := Append(b0 as nat - 0xC0, b1); Scalar(cp) && Encode(cp) == [b0, b1]
  {
    AppendTail(b0 as nat - 0xC0, b1);
  }

  lemma ThreeBytes(b0: Byte, b1: Byte, b2: Byte)
    requires 0xE0 <= b0 <= 0xEF && IsTail(b1) && IsTail(b2)
    requires (b0 == 0xE0 ==> 0xA0 <= b1) && (b0 == 0xED ==> b1 <= 0x9F)
    ensures var cp := Append(Append(b0 as nat - 0xE0, b1), b2); Scalar(cp) && Encode(cp) == [b0, b1, b2]
  {
    AppendTail(b0 as nat - 0xE0, b1);
    AppendTail(Append(b0 as nat - 0xE0, b1), b2);
  }

  /** Four bytes from the scalar value and its prefixes of six bits less each. */
  lemma EncodeFour(cp: nat, c2: nat, c1: nat, c0: nat, b1: Byte, b2: Byte, b3: Byte)
    requires 0x1_0000 <= cp < 0x11_0000 && cp / 64 == c2 && c2 / 64 == c1 && c1 / 64 == c0
    requires Tail(cp) == b3 && Tail(c2) == b2 && Tail(c1) == b1
    ensures Encode(cp) == [(0xF0 + c0) as Byte, b1, b2, b3]
  {
  }

  lemma FourBytes(b0: Byte, b1: Byte, b2: Byte, b3: Byte, c1: nat, c2: nat, cp: nat)
    requires 0xF0 <= b0 <= 0xF4 && IsTail(b1) && IsTail(b2) && IsTail(b3)
    requires (b0 == 0xF0 ==> 0x90 <= b1) && (b0 == 0xF4 ==> b1 <= 0x8F)
    requires c1 == Append(b0 as nat - 0xF0, b1) && c2 == Append(c1, b2) && cp == Append(c2, b3)
    ensures Scalar(cp) && Encode(cp) == [b0, b1, b2, b3]
  {
    AppendTail(b0 as nat - 0xF0, b1);
    AppendTail(c1, b2);
    AppendTail(c2, b3);
    assert 0x10 <= c1 < 0x110;
    EncodeFour(cp, c2, c1, b0 as nat - 0xF0, b1, b2, b3);
  }

  /** What the bytes that start a text look like. */
  lemma DecodedFrom(b: Bytes)
    requires CharLength(b) != 0
    ensures var n := CharLength(b);
      && 1 <= n <= 4 && (forall i | 1 <= i < n :: IsTail(b[i]))
      && (n == 1 ==> b[0] < 0x80) && (n == 2 ==> 0xC2 <= b[0] <= 0xDF)
      && (n == 3 ==> 0xE0 <= b[0] <= 0xEF && (b[0] == 0xE0 ==> 0xA0 <= b[1]) && (b[0] == 0xED ==> b[1] <= 0x9F))
      && (n == 4 ==> 0xF0 <= b[0] <= 0xF4 && (b[0] == 0xF0 ==> 0x90 <= b[1]) && (b[0] == 0xF4 ==> b[1] <= 0x8F))
  {
  }

  /** What starts a text is the encoding of what it decodes to: there is no other form of it. */
  lemma EncodeDecoded(b: Bytes)
    requires CharLength(b) != 0
    ensures Scalar(Decode(b)) && Encode(Decode(b)) == b[..CharLength(b)]
  {
    var n := CharLength(b);
    DecodedFrom(b);
    if n == 1 {
      assert b[..1] == [b[0]];
    } else if n == 2 {
      TwoBytes(b[0], b[1]);
      assert b[..2] == [b[0], b[1]];
    } else if n == 3 {
      ThreeBytes(b[0], b[1], b[2]);
      assert b[..3] == [b[0], b[1], b[2]];
    } else {
      var c1 := Append(b[0] as nat - 0xF0, b[1]);
      FourBytes(b[0], b[1], b[2], b[3], c1, Append(c1, b[2]), Append(Append(c1, b[2]), b[3]));
      assert b[..4] == [b[0], b[1], b[2], b[3]];
    }
  }

  /** How many bytes a scalar value takes, and what they look like. */
  lemma EncodedLength(cp: nat, rest: Bytes)
    requires Scalar(cp)
    ensures CharLength(Encode(cp) + rest) == |Encode(cp)|
  {
    var b, c := Encode(cp) + rest, Encode(cp);
    assert forall i | 0 <= i < |c| :: b[i] == c[i];
    TailAppends(cp);
    TailAppends(cp / 64);
    TailAppends(cp / 64 / 64);
  }

  lemma DecodeEncoded(cp: nat, rest: Bytes)
    requires Scalar(cp)
    ensures var b := Encode(cp) + rest; CharLength(b) == |Encode(cp)| && Decode(b) == cp
  {
    var b, c := Encode(cp) + rest, Encode(cp);
    EncodedLength(cp, rest);
    assert forall i | 0 <= i < |c| :: b[i] == c[i];
    TailAppends(cp);
    TailAppends(cp / 64);
    TailAppends(cp / 64 / 64);
  }

  lemma EncodeOneMore(b: Bytes, n: nat, first: nat, rest: seq<nat>)
    requires Scalar(first) && Scalars(rest) && n <= |b| && Encode(first) == b[..n] && EncodeAll(rest) == b[n..]
    ensures Scalars([first] + rest) && EncodeAll([first] + rest) == b
  {
    assert ([first] + rest)[1..] == rest;
    assert b == b[..n] + b[n..];
  }

  lemma ValidGoesOn(b: Bytes)
    requires ValidUtf8(b) && b != []
    ensures CharLength(b) != 0 && ValidUtf8(b[CharLength(b)..])
    ensures DecodeAll(b) == [Decode(b)] + DecodeAll(b[CharLength(b)..])
  {
  }

  lemma {:induction false} ValidIsEncoded(b: Bytes)
    requires ValidUtf8(b)
    ensures Scalars(DecodeAll(b)) && EncodeAll(DecodeAll(b)) == b
  {
    if b != [] {
      ValidGoesOn(b);
      EncodeDecoded(b);
      ValidIsEncoded(b[CharLength(b)..]);
      EncodeOneMore(b, CharLength(b), Decode(b), DecodeAll(b[CharLength(b)..]));
    }
  }

  lemma {:induction false} EncodedIsValid(cps: seq<nat>)
    requires Scalars(cps)
    ensures ValidUtf8(EncodeAll(cps)) && DecodeAll(EncodeAll(cps)) == cps
  {
    if cps != [] {
      var b, c := EncodeAll(cps), Encode(cps[0]);
      EncodedIsValid(cps[1..]);
      DecodeEncoded(cps[0], EncodeAll(cps[1..]));
      assert b[|c|..] == EncodeAll(cps[1..]);
    }
  }

  /** A chunk is text exactly if it is the encoding of some scalar values. */
  lemma TextIsEncoding(b: Bytes)
    ensures ValidUtf8(b) <==> exists cps :: Scalars(cps) && EncodeAll(cps) == b
  {
    if ValidUtf8(b) {
      ValidIsEncoded(b);
    }
    if cps :| Scalars(cps) && EncodeAll(cps) == b {
      EncodedIsValid(cps);
    }
  }
}
