/**
 * `encodeURIComponent` as ECMAScript defines it (section 19.2.6.5 of
 * ECMA-262): every character outside the unreserved set is written as the
 * `%XX` escapes of its UTF-8 bytes, upper-case hexadecimal; and the matching
 * decoding of escapes back into bytes.
 */
module Uri {

  import opened Wrappers

  type Byte = b: int | 0 <= b < 256

  /** The characters `encodeURIComponent` leaves as they are. */
  predicate Unreserved(c: char) {
    ('A' <= c <= 'Z') || ('a' <= c <= 'z') || ('0' <= c <= '9') ||
    c == '-' || c == '_' || c == '.' || c == '!' || c == '~' || c == '*' || c == '\'' || c == '(' || c == ')'
  }

  /** The UTF-8 encoding of one Unicode scalar value: the code point is cut
      into 6-bit groups from the right, and the lead byte says how many
      continuation bytes follow. */
  function Utf8(c: char): (bs: seq<Byte>)
    ensures 1 <= |bs| <= 4
    ensures |bs| == 1 <==> c as int < 0x80
    ensures |bs| == 1 ==> bs[0] == c as int
  {
    var n := c as int;
    var q1, r1 := n / 64, n % 64;
    var q2, r2 := q1 / 64, q1 % 64;
    var q3, r3 := q2 / 64, q2 % 64;
    if n < 0x80 then [n]
    else if n < 0x800 then [0xC0 + q1, 0x80 + r1]
    else if n < 0x10000 then [0xE0 + q2, 0x80 + r2, 0x80 + r1]
    else [0xF0 + q3, 0x80 + r3, 0x80 + r2, 0x80 + r1]
  }

  function Utf8Bytes(s: string): seq<Byte> {
    if s == [] then [] else Utf8(s[0]) + Utf8Bytes(s[1..])
  }

  /** An upper-case hexadecimal digit. */
  function HexUpper(d: int): (c: char)
    requires 0 <= d < 16
    ensures IsHex(c) && HexValue(c) == d
  {
    if d < 10 then ('0' as int + d) as char else ('A' as int + d - 10) as char
  }

  predicate IsHex(c: char) {
    ('0' <= c <= '9') || ('A' <= c <= 'F') || ('a' <= c <= 'f')
  }

  function HexValue(c: char): (d: int)
    requires IsHex(c)
    ensures 0 <= d < 16
  {
    if '0' <= c <= '9' then c as int - '0' as int
    else if 'A' <= c <= 'F' then c as int - 'A' as int + 10
    else c as int - 'a' as int + 10
  }

  /** `%XX` for one byte. */
  function Escape(b: Byte): string {
    ['%', HexUpper(b / 16), HexUpper(b % 16)]
  }

  function Escapes(bs: seq<Byte>): string {
    if bs == [] then [] else Escape(bs[0]) + Escapes(bs[1..])
  }

  function EncodeChar(c: char): string {
    if Unreserved(c) then [c] else Escapes(Utf8(c))
  }

  /** `encodeURIComponent(s)`. Lone surrogates, on which it throws, are not
      Dafny characters. */
  function EncodeURIComponent(s: string): string {
    if s == [] then [] else EncodeChar(s[0]) + EncodeURIComponent(s[1..])
  }

  /** The characters an encoded component is made of. */
  predicate EncodedChar(c: char) {
    Unreserved(c) || c == '%'
  }

  lemma {:induction false} EscapesChars(bs: seq<Byte>)
    ensures forall i :: 0 <= i < |Escapes(bs)| ==> EncodedChar(Escapes(bs)[i])
  {
    if bs != [] {
      EscapesChars(bs[1..]);
    }
  }

  /** An encoded component holds only unreserved characters and `%`: in
      particular no `/`, `?` or `#`, so it stays one path segment. */
  lemma {:induction false} EncodedIsSegment(s: string)
    ensures forall i :: 0 <= i < |EncodeURIComponent(s)| ==> EncodedChar(EncodeURIComponent(s)[i])
    ensures '/' !in EncodeURIComponent(s)
  {
    if s != [] {
      EncodedIsSegment(s[1..]);
      if !Unreserved(s[0]) {
        EscapesChars(Utf8(s[0]));
      }
      var e := EncodeURIComponent(s);
      assert forall i :: 0 <= i < |e| ==> EncodedChar(e[i]);
    }
  }

  /** A component made of unreserved characters is sent as it is. */
  lemma {:induction false} EncodeUnreserved(s: string)
    requires forall i :: 0 <= i < |s| ==> Unreserved(s[i])
    ensures EncodeURIComponent(s) == s
  {
    if s != [] {
      EncodeUnreserved(s[1..]);
      assert s == [s[0]] + s[1..];
    }
  }

  /** Percent-decoding into bytes: `%XX` is one byte, any other ASCII character
      its own byte; anything else is malformed. */
  function Decode(t: string): Option<seq<Byte>> {
    if t == [] then Some([])
    else if t[0] == '%' then
      if |t| >= 3 && IsHex(t[1]) && IsHex(t[2]) then
        match Decode(t[3..])
        case None => None
        case Some(rest) => Some([HexValue(t[1]) * 16 + HexValue(t[2])] + rest)
      else None
    else if t[0] as int < 0x80 then
      match Decode(t[1..])
      case None => None
      case Some(rest) => Some([t[0] as int] + rest)
    else None
  }

  lemma DecodeEscape(b: Byte, rest: string)
    ensures Decode(Escape(b) + rest) ==
      if Decode(rest).None? then None else Some([b] + Decode(rest).value)
  {
    var t := Escape(b) + rest;
    assert t[3..] == rest;
  }

  lemma {:induction false} DecodeEscapes(bs: seq<Byte>, rest: string)
    ensures Decode(Escapes(bs) + rest) ==
      if Decode(rest).None? then None else Some(bs + Decode(rest).value)
  {
    if bs == [] {
      assert Escapes(bs) + rest == rest;
      if Decode(rest).Some? {
        assert bs + Decode(rest).value == Decode(rest).value;
      }
    } else {
      var t := Escapes(bs[1..]) + rest;
      DecodeEscapes(bs[1..], rest);
      assert Escapes(bs) + rest == Escape(bs[0]) + t;
      DecodeEscape(bs[0], t);
      if Decode(rest).Some? {
        assert bs == [bs[0]] + bs[1..];
        assert [bs[0]] + (bs[1..] + Decode(rest).value) == bs + Decode(rest).value;
      }
    }
  }

  lemma DecodeEncodeChar(c: char, rest: string)
    ensures Decode(EncodeChar(c) + rest) ==
      if Decode(rest).None? then None else Some(Utf8(c) + Decode(rest).value)
  {
    if Unreserved(c) {
      var t := [c] + rest;
      assert t[1..] == rest;
    } else {
      DecodeEscapes(Utf8(c), rest);
    }
  }

  /** Decoding an encoded component gives back the UTF-8 bytes of the text. */
  lemma {:induction false} DecodeEncode(s: string)
    ensures Decode(EncodeURIComponent(s)) == Some(Utf8Bytes(s))
  {
    if s != [] {
      DecodeEncode(s[1..]);
      DecodeEncodeChar(s[0], EncodeURIComponent(s[1..]));
    }
  }

  // ---------------------------------------------------------------------------
  // The encoding is injective

  /** How many bytes the UTF-8 sequence with this lead byte has. */
  function SequenceLength(lead: Byte): nat {
    if lead < 0x80 then 1 else if lead < 0xE0 then 2 else if lead < 0xF0 then 3 else 4
  }

  /** The code point a UTF-8 sequence stands for: the payload bits of its bytes
      put together. */
  function CodePoint(bs: seq<Byte>): int
    requires 1 <= |bs| <= 4
  {
    if |bs| == 1 then bs[0]
    else
      var b: seq<int> := bs;
      if |b| == 2 then (b[0] - 0xC0) * 64 + (b[1] - 0x80)
      else if |b| == 3 then ((b[0] - 0xE0) * 64 + (b[1] - 0x80)) * 64 + (b[2] - 0x80)
      else (((b[0] - 0xF0) * 64 + (b[1] - 0x80)) * 64 + (b[2] - 0x80)) * 64 + (b[3] - 0x80)
  }

  /** The lead byte announces the length of the sequence, and the bytes hold
      the code point. */
  lemma Utf8Decodes(c: char)
    ensures SequenceLength(Utf8(c)[0]) == |Utf8(c)|
    ensures CodePoint(Utf8(c)) == c as int
  {
    var n := c as int;
    var q1, r1 := n / 64, n % 64;
    var q2, r2 := q1 / 64, q1 % 64;
    var q3, r3 := q2 / 64, q2 % 64;
    assert n == q1 * 64 + r1;
    assert q1 == q2 * 64 + r2;
    assert q2 == q3 * 64 + r3;
  }

  lemma Utf8Injective(a: char, b: char)
    requires Utf8(a) == Utf8(b)
    ensures a == b
  {
    Utf8Decodes(a);
    Utf8Decodes(b);
  }

  /** No two texts are sent as the same component. */
  lemma {:induction false} Utf8BytesInjective(s: string, t: string)
    requires Utf8Bytes(s) == Utf8Bytes(t)
    ensures s == t
  {
    if s != [] && t != [] {
      var a, b := Utf8(s[0]), Utf8(t[0]);
      Utf8Decodes(s[0]);
      Utf8Decodes(t[0]);
      assert Utf8Bytes(s)[0] == a[0] && Utf8Bytes(t)[0] == b[0];
      assert |a| == |b|;
      assert a == Utf8Bytes(s)[..|a|];
      assert b == Utf8Bytes(t)[..|b|];
      Utf8Injective(s[0], t[0]);
      assert Utf8Bytes(s[1..]) == Utf8Bytes(s)[|a|..];
      assert Utf8Bytes(t[1..]) == Utf8Bytes(t)[|b|..];
      Utf8BytesInjective(s[1..], t[1..]);
      assert s == [s[0]] + s[1..] && t == [t[0]] + t[1..];
    }
  }

  lemma EncodeInjective(s: string, t: string)
    requires EncodeURIComponent(s) == EncodeURIComponent(t)
    ensures s == t
  {
    DecodeEncode(s);
    DecodeEncode(t);
    Utf8BytesInjective(s, t);
  }
}
