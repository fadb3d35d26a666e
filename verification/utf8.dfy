/** UTF-8 (RFC 3629): the byte encoding that query-string percent-escapes
    are taken over. A Dafny `char` is a Unicode scalar value. */
module Utf8 {

  /** A byte, as the integer it denotes. */
  type Byte = b: int | 0 <= b < 256

  /** The code point U+FFFD that replaces a malformed byte when decoding. */
  const Replacement: char := 0xFFFD as char

  predicate IsContinuation(b: Byte) {
    0x80 <= b < 0xC0
  }

  /** The UTF-8 encoding of one scalar value (section 3 of RFC 3629). */
  function EncodeChar(c: char): (bs: seq<Byte>)
    ensures 1 <= |bs| <= 4
    ensures |bs| == 1 <==> c as int < 0x80
    ensures |bs| == 1 ==> bs[0] == c as int
    ensures forall i :: 1 <= i < |bs| ==> IsContinuation(bs[i])
  {
    var n := c as int;
    if n < 0x80 then [n]
    else if n < 0x800 then [0xC0 + n / 64, 0x80 + n % 64]
    else if n < 0x10000 then [0xE0 + n / 4096, 0x80 + (n / 64) % 64, 0x80 + n % 64]
    else [0xF0 + n / 262144, 0x80 + (n / 4096) % 64, 0x80 + (n / 64) % 64, 0x80 + n % 64]
  }

  function EncodeString(s: string): seq<Byte> {
    if s == [] then [] else EncodeChar(s[0]) + EncodeString(s[1..])
  }

  /** Value of a two-, three- or four-byte sequence, without range checks. */
  function Value2(b0: Byte, b1: Byte): int {
    (b0 - 0xC0) * 64 + (b1 - 0x80)
  }

  function Value3(b0: Byte, b1: Byte, b2: Byte): int {
    ((b0 - 0xE0) * 64 + (b1 - 0x80)) * 64 + (b2 - 0x80)
  }

  function Value4(b0: Byte, b1: Byte, b2: Byte, b3: Byte): int {
    (((b0 - 0xF0) * 64 + (b1 - 0x80)) * 64 + (b2 - 0x80)) * 64 + (b3 - 0x80)
  }

  /** The first character a byte sequence encodes, with the number of bytes
      it takes. A byte that does not start a well-formed sequence decodes to
      U+FFFD on its own. */
  function DecodeFirst(bs: seq<Byte>): (r: (char, nat))
    requires |bs| > 0
    ensures 1 <= r.1 <= |bs|
  {
    var b0 := bs[0];
    if b0 < 0x80 then
      (b0 as char, 1)
    else if 0xC2 <= b0 < 0xE0 && 2 <= |bs| && IsContinuation(bs[1]) then
      (Value2(b0, bs[1]) as char, 2)
    else if 0xE0 <= b0 < 0xF0 && 3 <= |bs| && IsContinuation(bs[1]) && IsContinuation(bs[2])
            && 0x800 <= Value3(b0, bs[1], bs[2])
            && !(0xD800 <= Value3(b0, bs[1], bs[2]) < 0xE000) then
      (Value3(b0, bs[1], bs[2]) as char, 3)
    else if 0xF0 <= b0 < 0xF5 && 4 <= |bs| && IsContinuation(bs[1]) && IsContinuation(bs[2])
            && IsContinuation(bs[3])
            && 0x10000 <= Value4(b0, bs[1], bs[2], bs[3]) < 0x110000 then
      (Value4(b0, bs[1], bs[2], bs[3]) as char, 4)
    else
      (Replacement, 1)
  }

  /** Decodes a byte sequence into characters, replacing malformed bytes. */
  function Decode(bs: seq<Byte>): string
    decreases |bs|
  {
    if bs == [] then []
    else
      var (c, len) := DecodeFirst(bs);
      [c] + Decode(bs[len..])
  }

  lemma DivMod64(n: int)
    requires 0 <= n
    ensures n == (n / 64) * 64 + n % 64
    ensures 0 <= n % 64 < 64
  {
  }

  /** Decoding reads back exactly the character that was encoded. */
  lemma DecodeFirstEncode(c: char, rest: seq<Byte>)
    ensures DecodeFirst(EncodeChar(c) + rest) == (c, |EncodeChar(c)|)
  {
    var n := c as int;
    var bs := EncodeChar(c) + rest;
    var q1 := n / 64;
    var q2 := q1 / 64;
    var q3 := q2 / 64;
    DivMod64(n);
    DivMod64(q1);
    DivMod64(q2);
    assert n / 4096 == q2;
    assert n / 262144 == q3;
    assert (n / 4096) % 64 == q2 % 64;
    if n < 0x80 {
    } else if n < 0x800 {
      assert Value2(bs[0], bs[1]) == n;
    } else if n < 0x10000 {
      assert Value3(bs[0], bs[1], bs[2]) == n;
    } else {
      assert Value4(bs[0], bs[1], bs[2], bs[3]) == n;
    }
  }

  /** UTF-8 round trip: decoding an encoded string gives back the string. */
  lemma {:induction false} DecodeEncode(s: string)
    ensures Decode(EncodeString(s)) == s
  {
    if s != [] {
      var e := EncodeChar(s[0]);
      var rest := EncodeString(s[1..]);
      DecodeFirstEncode(s[0], rest);
      assert (e + rest)[|e|..] == rest;
      DecodeEncode(s[1..]);
      assert [s[0]] + s[1..] == s;
    }
  }

  lemma {:induction false} EncodeStringConcat(s: string, t: string)
    ensures EncodeString(s + t) == EncodeString(s) + EncodeString(t)
  {
    if s != [] {
      assert (s + t)[0] == s[0];
      assert (s + t)[1..] == s[1..] + t;
      EncodeStringConcat(s[1..], t);
      assert EncodeChar(s[0]) + (EncodeString(s[1..]) + EncodeString(t))
          == (EncodeChar(s[0]) + EncodeString(s[1..])) + EncodeString(t);
    } else {
      assert s + t == t;
    }
  }
}
