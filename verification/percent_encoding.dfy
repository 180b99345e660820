/**
 * PHP's `rawurlencode`: the UTF-8 bytes of a string, percent-encoded as in
 * section 2.1 of RFC 3986, with the unreserved characters of section 2.3
 * (ALPHA, DIGIT, "-", ".", "_", "~") left as they are. A decoder is given as
 * the encoder's partner.
 */
module PercentEncoding {
  import opened Base

  type Byte = b: int | 0 <= b < 256

  /** The UTF-8 encoding of one Unicode scalar value. */
  function Utf8Char(c: char): (r: seq<Byte>)
    ensures 1 <= |r| <= 4
    ensures c as int < 0x80 <==> |r| == 1
    ensures |r| == 1 ==> r[0] == c as int
  {
    var cp := c as int;
    if cp < 0x80 then [cp]
    else if cp < 0x800 then [0xC0 + cp / 0x40, 0x80 + cp % 0x40]
    else if cp < 0x1_0000 then [0xE0 + cp / 0x1000, 0x80 + (cp / 0x40) % 0x40, 0x80 + cp % 0x40]
    else [0xF0 + cp / 0x4_0000, 0x80 + (cp / 0x1000) % 0x40, 0x80 + (cp / 0x40) % 0x40, 0x80 + cp % 0x40]
  }

  /** The UTF-8 bytes of a string, which is what PHP strings hold. */
  function Utf8(s: string): (r: seq<Byte>)
    ensures |r| >= |s|
    decreases |s|
  {
    if s == [] then [] else Utf8Char(s[0]) + Utf8(s[1..])
  }

  /** Section 2.3 of RFC 3986: characters that never need encoding. */
  predicate IsUnreservedChar(c: char) {
    ('A' <= c <= 'Z') || ('a' <= c <= 'z') || ('0' <= c <= '9')
    || c == '-' || c == '.' || c == '_' || c == '~'
  }

  predicate IsUnreserved(b: Byte) {
    IsUnreservedChar(b as char)
  }

  predicate IsHexDigit(c: char) {
    ('0' <= c <= '9') || ('A' <= c <= 'F') || ('a' <= c <= 'f')
  }

  /** `rawurlencode` writes upper-case hexadecimal digits. */
  function HexDigit(n: int): (c: char)
    requires 0 <= n < 16
    ensures IsHexDigit(c) && !('a' <= c <= 'f')
    ensures HexValue(c) == n
  {
    if n < 10 then ('0' as int + n) as char else ('A' as int + n - 10) as char
  }

  function HexValue(c: char): (n: int)
    requires IsHexDigit(c)
    ensures 0 <= n < 16
  {
    if '0' <= c <= '9' then c as int - '0' as int
    else if 'A' <= c <= 'F' then c as int - 'A' as int + 10
    else c as int - 'a' as int + 10
  }

  /** Characters that may appear in encoded output. */
  predicate IsEncodedChar(c: char) {
    IsUnreservedChar(c) || c == '%'
  }

  /** One byte: itself when unreserved, otherwise "%" and two hexadecimal digits. */
  function EncodeByte(b: Byte): (r: string)
    ensures |r| == 1 || |r| == 3
    ensures forall k :: 0 <= k < |r| ==> IsEncodedChar(r[k])
  {
    if IsUnreserved(b) then [b as char] else ['%', HexDigit(b / 16), HexDigit(b % 16)]
  }

  function EncodeBytes(bs: seq<Byte>): (r: string)
    ensures |r| >= |bs|
    ensures forall k :: 0 <= k < |r| ==> IsEncodedChar(r[k])
    decreases |bs|
  {
    if bs == [] then []
    else
      var head := EncodeByte(bs[0]);
      var tail := EncodeBytes(bs[1..]);
      assert forall k :: |head| <= k < |head + tail| ==> (head + tail)[k] == tail[k - |head|];
      head + tail
  }

  /**
   * `rawurlencode`. The output holds only unreserved characters, "%" and
   * hexadecimal digits, so it never contains a space, "&", "#" or "?" and
   * cannot end the query parameter it is placed in.
   */
  function RawUrlEncode(s: string): (r: string)
    ensures forall k :: 0 <= k < |r| ==> IsEncodedChar(r[k])
    ensures |r| >= |s|
  {
    EncodeBytes(Utf8(s))
  }

  /** Percent-decoding; fails on a stray "%" or a character that should have been encoded. */
  function DecodeBytes(s: string): Option<seq<Byte>>
    decreases |s|
  {
    if s == [] then Some([])
    else if s[0] == '%' then
      if |s| >= 3 && IsHexDigit(s[1]) && IsHexDigit(s[2]) then
        match DecodeBytes(s[3..])
        case None => None
        case Some(rest) => Some([HexValue(s[1]) * 16 + HexValue(s[2])] + rest)
      else None
    else if IsUnreservedChar(s[0]) && (s[0] as int) < 256 then
      match DecodeBytes(s[1..])
      case None => None
      case Some(rest) => Some([s[0] as int] + rest)
    else None
  }

  lemma DecodeUnreservedByte(b: Byte, t: string)
    requires IsUnreserved(b)
    ensures DecodeBytes(EncodeByte(b) + t) ==
      match DecodeBytes(t)
      case None => None
      case Some(rest) => Some([b] + rest)
  {
    var s := EncodeByte(b) + t;
    assert s[0] == b as char && s[1..] == t;
  }

  lemma DecodeEscapedByte(b: Byte, t: string)
    requires !IsUnreserved(b)
    ensures DecodeBytes(EncodeByte(b) + t) ==
      match DecodeBytes(t)
      case None => None
      case Some(rest) => Some([b] + rest)
  {
    var hi, lo := HexDigit(b / 16), HexDigit(b % 16);
    var s := ['%', hi, lo] + t;
    assert s[0] == '%' && s[1] == hi && s[2] == lo;
    assert s[3..] == t;
    assert HexValue(hi) * 16 + HexValue(lo) == b;
  }

  /** Decoding undoes the encoding of the first byte. */
  lemma DecodeEncodeByte(b: Byte, t: string)
    ensures DecodeBytes(EncodeByte(b) + t) ==
      match DecodeBytes(t)
      case None => None
      case Some(rest) => Some([b] + rest)
  {
    if IsUnreserved(b) {
      DecodeUnreservedByte(b, t);
    } else {
      DecodeEscapedByte(b, t);
    }
  }

  /** Every byte string survives encoding followed by decoding. */
  lemma {:induction false} DecodeEncode(bs: seq<Byte>)
    ensures DecodeBytes(EncodeBytes(bs)) == Some(bs)
    decreases |bs|
  {
    if bs != [] {
      DecodeEncode(bs[1..]);
      DecodeEncodeByte(bs[0], EncodeBytes(bs[1..]));
      assert [bs[0]] + bs[1..] == bs;
    }
  }

  /** A message's UTF-8 bytes are recovered from its `rawurlencode` form. */
  lemma RawUrlDecode(s: string)
    ensures DecodeBytes(RawUrlEncode(s)) == Some(Utf8(s))
  {
    DecodeEncode(Utf8(s));
  }
}
