/** Byte encodings used to build the `Authorization` header of the local TCP
    transport: the UTF-8 bytes of a Rust `String` and base64 with the
    standard alphabet and `=` padding (section 4 of RFC 4648). Each encoder
    comes with a decoder and a proof that decoding undoes encoding. */
module Encoding {
  import opened Wrappers

  type byte = x: int | 0 <= x < 256

  // ---------------------------------------------------------------------
  // UTF-8
  // ---------------------------------------------------------------------

  /** A Unicode scalar value: what a Dafny `char` holds. */
  predicate IsScalar(n: int) {
    (0 <= n < 0xD800) || (0xE000 <= n < 0x11_0000)
  }

  lemma CharIsScalar(c: char)
    ensures IsScalar(c as int)
  {
  }

  /** The UTF-8 encoding of one scalar value (RFC 3629, section 3). */
  function Utf8Char(c: char): (r: seq<byte>)
    ensures 1 <= |r| <= 4
  {
    var n := c as int;
    if n < 0x80 then [n]
    else if n < 0x800 then [0xC0 + n / 64, 0x80 + n % 64]
    else if n < 0x1_0000 then [0xE0 + n / 4096, 0x80 + (n / 64) % 64, 0x80 + n % 64]
    else [0xF0 + n / 0x4_0000, 0x80 + (n / 4096) % 64, 0x80 + (n / 64) % 64, 0x80 + n % 64]
  }

  /** `s.as_bytes()`. */
  function Utf8(s: string): seq<byte> {
    if |s| == 0 then [] else Utf8Char(s[0]) + Utf8(s[1..])
  }

  predicate IsContinuation(b: byte) {
    0x80 <= b < 0xC0
  }

  /** Decodes the scalar value at the start of `bs`, with the number of
      bytes it takes; `None` when `bs` does not start with one. */
  function DecodeUtf8Char(bs: seq<byte>): Option<(char, nat)> {
    if |bs| == 0 then None
    else if bs[0] < 0x80 then Some((bs[0] as char, 1))
    else if 0xC0 <= bs[0] < 0xE0 && |bs| >= 2 && IsContinuation(bs[1]) then
      var n := (bs[0] as int - 0xC0) * 64 + (bs[1] as int - 0x80);
      if 0x80 <= n then Some((n as char, 2)) else None
    else if 0xE0 <= bs[0] < 0xF0 && |bs| >= 3 && IsContinuation(bs[1]) && IsContinuation(bs[2]) then
      var n := (bs[0] as int - 0xE0) * 4096 + (bs[1] as int - 0x80) * 64 + (bs[2] as int - 0x80);
      if 0x800 <= n && IsScalar(n) then Some((n as char, 3)) else None
    else if 0xF0 <= bs[0] < 0xF8 && |bs| >= 4 && IsContinuation(bs[1]) && IsContinuation(bs[2])
            && IsContinuation(bs[3]) then
      var n := (bs[0] as int - 0xF0) * 0x4_0000 + (bs[1] as int - 0x80) * 4096
               + (bs[2] as int - 0x80) * 64 + (bs[3] as int - 0x80);
      if 0x1_0000 <= n && IsScalar(n) then Some((n as char, 4)) else None
    else None
  }

  function DecodeUtf8(bs: seq<byte>): Option<string>
    decreases |bs|
  {
    if |bs| == 0 then Some("")
    else
      match DecodeUtf8Char(bs)
      case None => None
      case Some((c, k)) =>
        if 0 < k <= |bs| then
          match DecodeUtf8(bs[k..])
          case None => None
          case Some(rest) => Some([c] + rest)
        else None
  }

  lemma Split64(n: int)
    requires 0 <= n
    ensures n == (n / 64) * 64 + n % 64 && 0 <= n % 64 < 64
  {
  }

  lemma DecodeTwoByteChar(c: char, rest: seq<byte>)
    requires 0x80 <= c as int < 0x800
    ensures DecodeUtf8Char(Utf8Char(c) + rest) == Some((c, 2))
  {
    var n := c as int;
    var bs := Utf8Char(c) + rest;
    Split64(n);
    assert bs[0] - 0xC0 == n / 64 && bs[1] - 0x80 == n % 64;
  }

  lemma DecodeThreeByteChar(c: char, rest: seq<byte>)
    requires 0x800 <= c as int < 0x1_0000
    ensures DecodeUtf8Char(Utf8Char(c) + rest) == Some((c, 3))
  {
    var n := c as int;
    var bs := Utf8Char(c) + rest;
    var q := n / 64;
    Split64(n);
    Split64(q);
    assert n / 4096 == q / 64;
    assert bs[0] - 0xE0 == q / 64 && bs[1] - 0x80 == q % 64 && bs[2] - 0x80 == n % 64;
    assert (q / 64) * 4096 + (q % 64) * 64 + n % 64 == n;
  }

  lemma DecodeFourByteChar(c: char, rest: seq<byte>)
    requires 0x1_0000 <= c as int
    ensures DecodeUtf8Char(Utf8Char(c) + rest) == Some((c, 4))
  {
    var n := c as int;
    var bs := Utf8Char(c) + rest;
    var q := n / 64;
    var q2 := q / 64;
    Split64(n);
    Split64(q);
    Split64(q2);
    assert n / 4096 == q2;
    assert n / 0x4_0000 == q2 / 64;
    assert bs[0] - 0xF0 == q2 / 64 && bs[1] - 0x80 == q2 % 64;
    assert bs[2] - 0x80 == q % 64 && bs[3] - 0x80 == n % 64;
    assert (q2 / 64) * 0x4_0000 + (q2 % 64) * 4096 + (q % 64) * 64 + n % 64 == n;
  }

  /** The decoder reads back the scalar value at the front of an encoding,
      with the number of bytes its encoding takes. */
  lemma DecodeUtf8CharOfEncoding(c: char, rest: seq<byte>)
    ensures DecodeUtf8Char(Utf8Char(c) + rest) == Some((c, |Utf8Char(c)|))
  {
    var n := c as int;
    if n < 0x80 {
    } else if n < 0x800 {
      DecodeTwoByteChar(c, rest);
    } else if n < 0x1_0000 {
      DecodeThreeByteChar(c, rest);
    } else {
      DecodeFourByteChar(c, rest);
    }
  }

  /** Decoding the UTF-8 bytes of a string gives the string back. */
  lemma {:induction false} DecodeUtf8OfEncoding(s: string)
    ensures DecodeUtf8(Utf8(s)) == Some(s)
    decreases |s|
  {
    if |s| > 0 {
      var head := Utf8Char(s[0]);
      DecodeUtf8CharOfEncoding(s[0], Utf8(s[1..]));
      assert (head + Utf8(s[1..]))[|head|..] == Utf8(s[1..]);
      DecodeUtf8OfEncoding(s[1..]);
      assert [s[0]] + s[1..] == s;
    }
  }

  lemma {:induction false} Utf8Append(a: string, b: string)
    ensures Utf8(a + b) == Utf8(a) + Utf8(b)
    decreases |a|
  {
    if |a| > 0 {
      assert (a + b)[1..] == a[1..] + b;
      Utf8Append(a[1..], b);
    } else {
      assert a + b == b;
    }
  }

  // ---------------------------------------------------------------------
  // Base64, section 4 of RFC 4648
  // ---------------------------------------------------------------------

  /** The character for a 6-bit value in the standard alphabet (Table 1). */
  function Base64Digit(v: nat): (c: char)
    requires v < 64
  {
    if v < 26 then ('A' as int + v) as char
    else if v < 52 then ('a' as int + (v - 26)) as char
    else if v < 62 then ('0' as int + (v - 52)) as char
    else if v == 62 then '+'
    else '/'
  }

  /** The 6-bit value of a character of the standard alphabet. */
  function Base64Value(c: char): Option<nat> {
    if 'A' <= c <= 'Z' then Some(c as int - 'A' as int)
    else if 'a' <= c <= 'z' then Some(c as int - 'a' as int + 26)
    else if '0' <= c <= '9' then Some(c as int - '0' as int + 52)
    else if c == '+' then Some(62)
    else if c == '/' then Some(63)
    else None
  }

  lemma Base64ValueOfDigit(v: nat)
    requires v < 64
    ensures Base64Value(Base64Digit(v)) == Some(v)
  {
  }

  predicate IsBase64Char(c: char) {
    Base64Value(c).Some? || c == '='
  }

  /** The four characters for the first one to three bytes of `bs`. */
  function Base64Group(bs: seq<byte>): (g: string)
    requires 1 <= |bs| <= 3
    ensures |g| == 4 && forall i :: 0 <= i < 4 ==> IsBase64Char(g[i])
  {
    if |bs| == 1 then
      [Base64Digit(bs[0] / 4), Base64Digit((bs[0] % 4) * 16), '=', '=']
    else if |bs| == 2 then
      [Base64Digit(bs[0] / 4), Base64Digit((bs[0] % 4) * 16 + bs[1] / 16),
       Base64Digit((bs[1] % 16) * 4), '=']
    else
      [Base64Digit(bs[0] / 4), Base64Digit((bs[0] % 4) * 16 + bs[1] / 16),
       Base64Digit((bs[1] % 16) * 4 + bs[2] / 64), Base64Digit(bs[2] % 64)]
  }

  /** The encoding of bytes, three at a time into four characters, with the
      final one or two bytes padded by `=`. */
  function Base64Encode(bs: seq<byte>): (r: string)
    ensures |r| == 4 * ((|bs| + 2) / 3)
    ensures forall i :: 0 <= i < |r| ==> IsBase64Char(r[i])
    decreases |bs|
  {
    if |bs| == 0 then ""
    else if |bs| <= 2 then Base64Group(bs)
    else Base64Group(bs[..3]) + Base64Encode(bs[3..])
  }

  /** Decodes one group of four characters; `last` allows padding. */
  function Base64DecodeGroup(g: string, last: bool): Option<seq<byte>>
    requires |g| == 4
  {
    var v0, v1 := Base64Value(g[0]), Base64Value(g[1]);
    if v0.None? || v1.None? then None
    else if last && g[2] == '=' && g[3] == '=' then
      Some([v0.value * 4 + v1.value / 16])
    else
      var v2 := Base64Value(g[2]);
      if v2.None? then None
      else if last && g[3] == '=' then
        Some([v0.value * 4 + v1.value / 16, (v1.value % 16) * 16 + v2.value / 4])
      else
        var v3 := Base64Value(g[3]);
        if v3.None? then None
        else Some([v0.value * 4 + v1.value / 16, (v1.value % 16) * 16 + v2.value / 4,
                   (v2.value % 4) * 64 + v3.value])
  }

  function Base64Decode(s: string): Option<seq<byte>>
    decreases |s|
  {
    if |s| == 0 then Some([])
    else if |s| < 4 then None
    else
      match Base64DecodeGroup(s[..4], |s| == 4)
      case None => None
      case Some(head) =>
        match Base64Decode(s[4..])
        case None => None
        case Some(tail) => Some(head + tail)
  }

  lemma ByteSplits(b: byte)
    ensures b == (b / 4) * 4 + b % 4
    ensures b == (b / 16) * 16 + b % 16
    ensures b == (b / 64) * 64 + b % 64
    ensures b / 4 < 64 && b / 16 < 16 && b / 64 < 4
  {
  }

  lemma GroupArithmetic(b0: byte, b1: byte, b2: byte)
    ensures ((b0 % 4) * 16 + b1 / 16) / 16 == b0 % 4
    ensures ((b0 % 4) * 16 + b1 / 16) % 16 == b1 / 16
    ensures ((b1 % 16) * 4 + b2 / 64) / 4 == b1 % 16
    ensures ((b1 % 16) * 4 + b2 / 64) % 4 == b2 / 64
    ensures ((b1 % 16) * 4) / 4 == b1 % 16
    ensures ((b0 % 4) * 16) / 16 == b0 % 4
  {
    ByteSplits(b0);
    ByteSplits(b1);
    ByteSplits(b2);
  }

  lemma Base64Group1RoundTrip(b0: byte)
    ensures Base64DecodeGroup(Base64Group([b0]), true) == Some([b0])
  {
    var d0, d1 := b0 / 4, (b0 % 4) * 16;
    assert Base64Group([b0]) == [Base64Digit(d0), Base64Digit(d1), '=', '='];
    Base64ValueOfDigit(d0);
    Base64ValueOfDigit(d1);
    ByteSplits(b0);
    GroupArithmetic(b0, 0, 0);
    assert d0 * 4 + d1 / 16 == b0;
  }

  lemma Base64Group2RoundTrip(b0: byte, b1: byte)
    ensures Base64DecodeGroup(Base64Group([b0, b1]), true) == Some([b0, b1])
  {
    var d0, d1, d2 := b0 / 4, (b0 % 4) * 16 + b1 / 16, (b1 % 16) * 4;
    assert Base64Group([b0, b1]) == [Base64Digit(d0), Base64Digit(d1), Base64Digit(d2), '='];
    Base64ValueOfDigit(d0);
    Base64ValueOfDigit(d1);
    Base64ValueOfDigit(d2);
    ByteSplits(b0);
    ByteSplits(b1);
    GroupArithmetic(b0, b1, 0);
    assert d0 * 4 + d1 / 16 == b0;
    assert (d1 % 16) * 16 + d2 / 4 == b1;
  }

  lemma Base64Group3RoundTrip(b0: byte, b1: byte, b2: byte, last: bool)
    ensures Base64DecodeGroup(Base64Group([b0, b1, b2]), last) == Some([b0, b1, b2])
  {
    var d0, d1, d2, d3 := b0 / 4, (b0 % 4) * 16 + b1 / 16, (b1 % 16) * 4 + b2 / 64, b2 % 64;
    assert Base64Group([b0, b1, b2])
        == [Base64Digit(d0), Base64Digit(d1), Base64Digit(d2), Base64Digit(d3)];
    Base64ValueOfDigit(d0);
    Base64ValueOfDigit(d1);
    Base64ValueOfDigit(d2);
    Base64ValueOfDigit(d3);
    ByteSplits(b0);
    ByteSplits(b1);
    ByteSplits(b2);
    GroupArithmetic(b0, b1, b2);
    assert d0 * 4 + d1 / 16 == b0;
    assert (d1 % 16) * 16 + d2 / 4 == b1;
    assert (d2 % 4) * 64 + d3 == b2;
  }

  /** Decoding the group of one to three bytes gives those bytes back. */
  lemma Base64GroupRoundTrip(bs: seq<byte>, last: bool)
    requires 1 <= |bs| <= 3
    requires |bs| < 3 ==> last
    ensures Base64DecodeGroup(Base64Group(bs), last) == Some(bs)
  {
    if |bs| == 1 {
      Base64Group1RoundTrip(bs[0]);
      assert bs == [bs[0]];
    } else if |bs| == 2 {
      Base64Group2RoundTrip(bs[0], bs[1]);
      assert bs == [bs[0], bs[1]];
    } else {
      Base64Group3RoundTrip(bs[0], bs[1], bs[2], last);
      assert bs == [bs[0], bs[1], bs[2]];
    }
  }

  /** Base64 decoding undoes base64 encoding. */
  lemma {:induction false} Base64RoundTrip(bs: seq<byte>)
    ensures Base64Decode(Base64Encode(bs)) == Some(bs)
    decreases |bs|
  {
    var e := Base64Encode(bs);
    if 1 <= |bs| <= 2 {
      Base64GroupRoundTrip(bs, true);
      assert e[..4] == e && e[4..] == [];
      assert bs + [] == bs;
    } else if |bs| > 2 {
      var g := Base64Group(bs[..3]);
      var rest := Base64Encode(bs[3..]);
      assert e[..4] == g && e[4..] == rest;
      Base64GroupRoundTrip(bs[..3], |e| == 4);
      Base64RoundTrip(bs[3..]);
      assert bs[..3] + bs[3..] == bs;
    }
  }
}
