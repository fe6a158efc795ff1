/**
 * The two textual encodings the handlers use for random file names:
 * lower-case hexadecimal (Go's `encoding/hex`, the base16 alphabet of
 * section 8 of RFC 4648 in lower case) and unpadded base64url (Go's
 * `base64.RawURLEncoding`, the alphabet of section 5 of RFC 4648 without
 * '=' padding).
 */
module Encoding {
  import opened Wrappers

  type Byte = x: int | 0 <= x < 256

  // ---------------------------------------------------------------------------
  // Hexadecimal

  predicate IsLowerHexDigit(c: char)
  {
    '0' <= c <= '9' || 'a' <= c <= 'f'
  }

  /** The digit for a nibble: "0123456789abcdef"[v]. */
  function HexDigit(v: int): (c: char)
    requires 0 <= v < 16
    ensures IsLowerHexDigit(c)
  {
    if v < 10 then ('0' as int + v) as char else ('a' as int + v - 10) as char
  }

  function HexDigitValue(c: char): (v: int)
    requires IsLowerHexDigit(c)
    ensures 0 <= v < 16
    ensures HexDigit(v) == c
  {
    if c <= '9' then c as int - '0' as int else c as int - 'a' as int + 10
  }

  /** `hex.EncodeToString`: two digits per byte, high nibble first. */
  function HexEncode(b: seq<Byte>): (s: string)
    ensures |s| == 2 * |b|
    ensures forall i | 0 <= i < |s| :: IsLowerHexDigit(s[i])
  {
    if b == [] then [] else [HexDigit(b[0] / 16), HexDigit(b[0] % 16)] + HexEncode(b[1..])
  }

  /** The inverse of HexEncode: fails on an odd length or a character outside [0-9a-f]. */
  function HexDecode(s: string): (r: Option<seq<Byte>>)
    ensures r.Some? ==> 2 * |r.value| == |s|
  {
    if s == [] then Some([])
    else if |s| == 1 || !IsLowerHexDigit(s[0]) || !IsLowerHexDigit(s[1]) then None
    else
      match HexDecode(s[2..])
      case None => None
      case Some(rest) => Some([HexDigitValue(s[0]) * 16 + HexDigitValue(s[1])] + rest)
  }

  lemma HexDigitRoundTrip(v: int)
    requires 0 <= v < 16
    ensures HexDigitValue(HexDigit(v)) == v
  {
  }

  /** Hex decoding recovers exactly the encoded bytes. */
  lemma {:induction false} HexRoundTrip(b: seq<Byte>)
    ensures HexDecode(HexEncode(b)) == Some(b)
  {
    if b != [] {
      var s := HexEncode(b);
      assert s[2..] == HexEncode(b[1..]);
      HexRoundTrip(b[1..]);
      HexDigitRoundTrip(b[0] / 16);
      HexDigitRoundTrip(b[0] % 16);
      assert [b[0]] + b[1..] == b;
    }
  }

  // ---------------------------------------------------------------------------
  // Unpadded base64url

  predicate IsBase64UrlChar(c: char)
  {
    'A' <= c <= 'Z' || 'a' <= c <= 'z' || '0' <= c <= '9' || c == '-' || c == '_'
  }

  predicate AllBase64UrlChars(s: string)
  {
    forall i | 0 <= i < |s| :: IsBase64UrlChar(s[i])
  }

  /** The character for a six-bit value in the URL-safe alphabet A-Z a-z 0-9 - _. */
  function Base64UrlDigit(v: int): (c: char)
    requires 0 <= v < 64
    ensures IsBase64UrlChar(c)
  {
    if v < 26 then ('A' as int + v) as char
    else if v < 52 then ('a' as int + v - 26) as char
    else if v < 62 then ('0' as int + v - 52) as char
    else if v == 62 then '-'
    else '_'
  }

  function Base64UrlDigitValue(c: char): (v: int)
    requires IsBase64UrlChar(c)
    ensures 0 <= v < 64
    ensures Base64UrlDigit(v) == c
  {
    if 'A' <= c <= 'Z' then c as int - 'A' as int
    else if 'a' <= c <= 'z' then c as int - 'a' as int + 26
    else if '0' <= c <= '9' then c as int - '0' as int + 52
    else if c == '-' then 62
    else 63
  }

  lemma Base64UrlDigitRoundTrip(v: int)
    requires 0 <= v < 64
    ensures Base64UrlDigitValue(Base64UrlDigit(v)) == v
  {
  }

  /**
   * The six-bit values of a group of one to three bytes: the bytes read as a
   * big-endian bit string and cut into six-bit pieces, the last one filled
   * with zero bits.
   */
  function SixBitValues(g: seq<Byte>): (c: seq<int>)
    requires 1 <= |g| <= 3
    ensures |c| == |g| + 1
    ensures forall i | 0 <= i < |c| :: 0 <= c[i] < 64
  {
    var x, y, z := g[0], if |g| >= 2 then g[1] else 0, if |g| == 3 then g[2] else 0;
    [x / 4, x % 4 * 16 + y / 16, y % 16 * 4 + z / 64, z % 64][..|g| + 1]
  }

  /** Two to four six-bit values back to one to three bytes; the fill bits are dropped. */
  function BytesOfSixBitValues(c: seq<int>): (g: seq<Byte>)
    requires 2 <= |c| <= 4
    requires forall i | 0 <= i < |c| :: 0 <= c[i] < 64
    ensures |g| == |c| - 1
  {
    var b0 := c[0] * 4 + c[1] / 16;
    if |c| == 2 then [b0]
    else
      var b1 := c[1] % 16 * 16 + c[2] / 4;
      if |c| == 3 then [b0, b1] else [b0, b1, c[2] % 4 * 64 + c[3]]
  }

  /** The characters of a sequence of six-bit values. */
  function Digits(c: seq<int>): (s: string)
    requires forall i | 0 <= i < |c| :: 0 <= c[i] < 64
    ensures |s| == |c|
    ensures AllBase64UrlChars(s)
  {
    seq(|c|, i requires 0 <= i < |c| => Base64UrlDigit(c[i]))
  }

  /** The six-bit values of a sequence of alphabet characters. */
  function DigitValues(s: string): (c: seq<int>)
    requires AllBase64UrlChars(s)
    ensures |c| == |s|
    ensures forall i | 0 <= i < |c| :: 0 <= c[i] < 64
  {
    seq(|s|, i requires 0 <= i < |s| => Base64UrlDigitValue(s[i]))
  }

  /** The values come back from their characters. */
  lemma DigitValuesOfDigits(c: seq<int>)
    requires forall i | 0 <= i < |c| :: 0 <= c[i] < 64
    ensures DigitValues(Digits(c)) == c
  {
    forall i | 0 <= i < |c|
      ensures DigitValues(Digits(c))[i] == c[i]
    {
      Base64UrlDigitRoundTrip(c[i]);
    }
  }

  /** The bytes come back from their six-bit values. */
  lemma BytesOfSixBitValuesRoundTrip(g: seq<Byte>)
    requires 1 <= |g| <= 3
    ensures BytesOfSixBitValues(SixBitValues(g)) == g
  {
    var x, y, z := g[0], if |g| >= 2 then g[1] else 0, if |g| == 3 then g[2] else 0;
    SplitSixBits(x % 4, y / 16, 16);
    SplitSixBits(y % 16, z / 64, 4);
    if |g| == 1 {
      assert g == [x];
    } else if |g| == 2 {
      assert g == [x, y];
    } else {
      assert g == [x, y, z];
    }
  }

  /** A six-bit value made of a high part and a low part below `m` splits back into them. */
  lemma SplitSixBits(high: int, low: int, m: int)
    requires m == 4 || m == 16
    requires 0 <= low < m && 0 <= high
    ensures (high * m + low) / m == high && (high * m + low) % m == low
  {
  }

  /** One group of one to three bytes as two to four characters. */
  function EncodeGroup(g: seq<Byte>): (s: string)
    requires 1 <= |g| <= 3
    ensures |s| == |g| + 1
    ensures AllBase64UrlChars(s)
  {
    Digits(SixBitValues(g))
  }

  /** Two to four characters back to one to three bytes. */
  function DecodeGroup(s: string): (g: seq<Byte>)
    requires 2 <= |s| <= 4 && AllBase64UrlChars(s)
    ensures |g| == |s| - 1
  {
    BytesOfSixBitValues(DigitValues(s))
  }

  /** The bytes of one group come back from its characters. */
  lemma GroupRoundTrip(g: seq<Byte>)
    requires 1 <= |g| <= 3
    ensures DecodeGroup(EncodeGroup(g)) == g
  {
    DigitValuesOfDigits(SixBitValues(g));
    BytesOfSixBitValuesRoundTrip(g);
  }

  /**
   * `base64.RawURLEncoding.EncodeToString`: every three bytes become four
   * characters; a final one or two bytes become two or three characters,
   * and there is no '=' padding.
   */
  function Base64UrlEncode(b: seq<Byte>): (s: string)
    ensures |s| == (4 * |b| + 2) / 3
    ensures AllBase64UrlChars(s)
    decreases |b|
  {
    if |b| > 3 then EncodeGroup(b[..3]) + Base64UrlEncode(b[3..])
    else if b != [] then EncodeGroup(b)
    else []
  }

  /** The inverse of Base64UrlEncode: fails on a length of 1 modulo 4 or a character outside the alphabet. */
  function Base64UrlDecode(s: string): (r: Option<seq<Byte>>)
    decreases |s|
  {
    if s == [] then Some([])
    else if |s| == 1 || !AllBase64UrlChars(if |s| > 4 then s[..4] else s) then None
    else if |s| <= 4 then Some(DecodeGroup(s))
    else
      match Base64UrlDecode(s[4..])
      case None => None
      case Some(rest) => Some(DecodeGroup(s[..4]) + rest)
  }

  /** Base64url decoding recovers exactly the encoded bytes. */
  lemma {:induction false} Base64UrlRoundTrip(b: seq<Byte>)
    ensures Base64UrlDecode(Base64UrlEncode(b)) == Some(b)
    decreases |b|
  {
    var s := Base64UrlEncode(b);
    if |b| > 3 {
      var head := EncodeGroup(b[..3]);
      assert s[..4] == head && s[4..] == Base64UrlEncode(b[3..]);
      GroupRoundTrip(b[..3]);
      Base64UrlRoundTrip(b[3..]);
      assert b[..3] + b[3..] == b;
    } else if b != [] {
      GroupRoundTrip(b);
    }
  }
}
