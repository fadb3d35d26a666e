/** The escaping of Node's `querystring` module: `querystring.escape`, used by
    `stringify` on every key and value, and `querystring.unescape`, used by
    `parse`.

    `escape` keeps the characters `A-Z a-z 0-9 - _ . ! ~ * ' ( )` and writes
    every other character as the `%XX` escapes (upper-case hexadecimal) of
    its UTF-8 bytes. `parse` reads `+` as a space and `%XX` as a byte, and
    decodes the bytes as UTF-8; a `%` that does not start two hex digits
    stays a literal `%`. */
module Percent {
  import opened Utf8
  import opened Strings

  /** The characters `querystring.escape` leaves as they are. */
  predicate Unreserved(c: char) {
    ('A' <= c <= 'Z') || ('a' <= c <= 'z') || ('0' <= c <= '9') || c in "-_.!~*'()"
  }

  /** A character that escaped text may contain. */
  predicate Escaped(c: char) {
    Unreserved(c) || c == '%'
  }

  predicate AllEscaped(s: string) {
    forall i :: 0 <= i < |s| ==> Escaped(s[i])
  }

  predicate IsHexDigit(c: char) {
    ('0' <= c <= '9') || ('A' <= c <= 'F') || ('a' <= c <= 'f')
  }

  /** The upper-case hexadecimal digit for `d`. */
  function HexDigit(d: int): (c: char)
    requires 0 <= d < 16
    ensures IsHexDigit(c) && Unreserved(c)
  {
    if d < 10 then ('0' as int + d) as char else ('A' as int + d - 10) as char
  }

  function HexValue(c: char): (d: int)
    requires IsHexDigit(c)
    ensures 0 <= d < 16
  {
    if '0' <= c <= '9' then c as int - '0' as int
    else if 'A' <= c <= 'F' then c as int - 'A' as int + 10
    else c as int - 'a' as int + 10
  }

  /** `%XX` for one byte. */
  function EscapeByte(b: Byte): string {
    ['%', HexDigit(b / 16), HexDigit(b % 16)]
  }

  function EscapeBytes(bs: seq<Byte>): string {
    if bs == [] then [] else EscapeByte(bs[0]) + EscapeBytes(bs[1..])
  }

  function EscapeChar(c: char): string {
    if Unreserved(c) then [c] else EscapeBytes(EncodeChar(c))
  }

  /** `querystring.escape(s)`. */
  function Escape(s: string): string {
    if s == [] then [] else EscapeChar(s[0]) + Escape(s[1..])
  }

  /** The bytes a piece of query text stands for: `%XX` is the byte XX, `+`
      is a space, and any other character stands for its own UTF-8 bytes. */
  function UnescapeBytes(s: string): seq<Byte> {
    if s == [] then []
    else if s[0] == '%' && 3 <= |s| && IsHexDigit(s[1]) && IsHexDigit(s[2]) then
      [HexValue(s[1]) * 16 + HexValue(s[2])] + UnescapeBytes(s[3..])
    else if s[0] == '+' then
      [0x20] + UnescapeBytes(s[1..])
    else
      EncodeChar(s[0]) + UnescapeBytes(s[1..])
  }

  /** `querystring.unescape(s)`, with the `+` handling of `parse`. */
  function Unescape(s: string): string {
    Decode(UnescapeBytes(s))
  }

  lemma HexRoundTrip(d: int)
    requires 0 <= d < 16
    ensures HexValue(HexDigit(d)) == d
  {
  }

  /** Reading `%XX` back gives the byte XX. */
  lemma UnescapeEscapedByte(b: Byte, rest: string)
    ensures UnescapeBytes(EscapeByte(b) + rest) == [b] + UnescapeBytes(rest)
  {
    var s := EscapeByte(b) + rest;
    HexRoundTrip(b / 16);
    HexRoundTrip(b % 16);
    assert s[0] == '%' && s[1] == HexDigit(b / 16) && s[2] == HexDigit(b % 16);
    assert s[3..] == rest;
  }

  lemma {:induction false} UnescapeEscapedBytes(bs: seq<Byte>, rest: string)
    ensures UnescapeBytes(EscapeBytes(bs) + rest) == bs + UnescapeBytes(rest)
  {
    if bs != [] {
      var tail := EscapeBytes(bs[1..]) + rest;
      var u := UnescapeBytes(rest);
      AppendAssociative(EscapeByte(bs[0]), EscapeBytes(bs[1..]), rest);
      UnescapeEscapedByte(bs[0], tail);
      UnescapeEscapedBytes(bs[1..], rest);
      AppendAssociative([bs[0]], bs[1..], u);
      assert [bs[0]] + bs[1..] == bs;
    } else {
      assert EscapeBytes(bs) + rest == rest;
    }
  }

  lemma UnescapeEscapedChar(c: char, rest: string)
    ensures UnescapeBytes(EscapeChar(c) + rest) == EncodeChar(c) + UnescapeBytes(rest)
  {
    if Unreserved(c) {
      var s := [c] + rest;
      assert s[0] == c && s[1..] == rest;
    } else {
      UnescapeEscapedBytes(EncodeChar(c), rest);
    }
  }

  /** Reading escaped text back gives the UTF-8 bytes of the original. */
  lemma {:induction false} UnescapeBytesEscape(s: string)
    ensures UnescapeBytes(Escape(s)) == EncodeString(s)
  {
    if s != [] {
      UnescapeEscapedChar(s[0], Escape(s[1..]));
      UnescapeBytesEscape(s[1..]);
    }
  }

  /** Escaping round trip: `unescape(escape(s)) == s` for every string. */
  lemma UnescapeEscape(s: string)
    ensures Unescape(Escape(s)) == s
  {
    UnescapeBytesEscape(s);
    DecodeEncode(s);
  }

  lemma {:induction false} EscapeBytesEscaped(bs: seq<Byte>)
    ensures AllEscaped(EscapeBytes(bs))
  {
    if bs != [] {
      EscapeBytesEscaped(bs[1..]);
      var e := EscapeByte(bs[0]);
      assert AllEscaped(e);
      AllEscapedConcat(e, EscapeBytes(bs[1..]));
    }
  }

  lemma AllEscapedConcat(s: string, t: string)
    requires AllEscaped(s) && AllEscaped(t)
    ensures AllEscaped(s + t)
  {
    forall i | 0 <= i < |s + t|
      ensures Escaped((s + t)[i])
    {
      if i >= |s| {
        assert (s + t)[i] == t[i - |s|];
      }
    }
  }

  /** Escaped text holds only unreserved characters and `%`; in particular
      no `&`, `=` or `?`, which separate the parts of a URL's query. */
  lemma {:induction false} EscapeIsEscaped(s: string)
    ensures AllEscaped(Escape(s))
    ensures '&' !in Escape(s) && '=' !in Escape(s) && '?' !in Escape(s)
  {
    if s != [] {
      EscapeIsEscaped(s[1..]);
      if !Unreserved(s[0]) {
        EscapeBytesEscaped(EncodeChar(s[0]));
      }
      AllEscapedConcat(EscapeChar(s[0]), Escape(s[1..]));
    }
    EscapedAvoids(Escape(s));
  }

  /** The query separators are not among the characters of escaped text. */
  lemma EscapedAvoids(r: string)
    requires AllEscaped(r)
    ensures '&' !in r && '=' !in r && '?' !in r
  {
    forall i | 0 <= i < |r|
      ensures r[i] != '&' && r[i] != '=' && r[i] != '?'
    {
      assert Escaped(r[i]);
    }
  }

  /** Text made of unreserved characters only is left as it is. */
  lemma {:induction false} EscapeUnreserved(s: string)
    requires forall i :: 0 <= i < |s| ==> Unreserved(s[i])
    ensures Escape(s) == s
  {
    if s != [] {
      EscapeUnreserved(s[1..]);
      assert [s[0]] + s[1..] == s;
    }
  }

  /** Escaping works character by character. */
  lemma {:induction false} EscapeConcat(s: string, t: string)
    ensures Escape(s + t) == Escape(s) + Escape(t)
  {
    if s != [] {
      assert (s + t)[0] == s[0];
      assert (s + t)[1..] == s[1..] + t;
      EscapeConcat(s[1..], t);
      assert EscapeChar(s[0]) + (Escape(s[1..]) + Escape(t))
          == (EscapeChar(s[0]) + Escape(s[1..])) + Escape(t);
    } else {
      assert s + t == t;
    }
  }

  /** Escaping never yields the empty string from a non-empty one. */
  lemma {:induction false} EscapeEmpty(s: string)
    ensures Escape(s) == [] <==> s == []
  {
    if s != [] {
      assert |EscapeChar(s[0])| > 0;
    }
  }
}
