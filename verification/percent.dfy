/**
 * `urllib.parse.quote_plus` on a `str`: the text is encoded as UTF-8 and
 * every byte outside the always-safe set (ASCII letters, digits and `_.-~`)
 * is written as `%XX` with upper-case hex digits, except the space byte,
 * which is written as `+`. This is the percent-encoding of sections 2.1
 * and 2.3 of RFC 3986 with the form-encoding convention for spaces.
 */
module PercentEncoding {
  import opened Wrappers

  type byte = x: int | 0 <= x < 256

  /** The UTF-8 encoding of one Unicode scalar value. */
  function Utf8(c: char): (bs: seq<byte>)
    ensures 1 <= |bs| <= 4
    ensures (c as int < 0x80) <==> |bs| == 1
    ensures |bs| == 1 ==> bs[0] == c as int
    ensures forall i :: 1 <= i < |bs| ==> 0x80 <= bs[i] < 0xC0
    ensures |bs| > 1 ==> bs[0] >= 0xC0
  {
    var n := c as int;
    if n < 0x80 then [n]
    else if n < 0x800 then [0xC0 + n / 64, 0x80 + n % 64]
    else if n < 0x1_0000 then [0xE0 + n / 4096, 0x80 + (n / 64) % 64, 0x80 + n % 64]
    else [0xF0 + n / 262144, 0x80 + (n / 4096) % 64, 0x80 + (n / 64) % 64, 0x80 + n % 64]
  }

  /** `s.encode('utf-8')`. */
  function Utf8Encode(s: string): (r: seq<byte>)
    decreases |s|
  {
    if s == [] then [] else Utf8(s[0]) + Utf8Encode(s[1..])
  }

  /** The bytes `quote` never escapes: ASCII letters, digits and `_.-~` (RFC 3986, section 2.3). */
  predicate Unreserved(b: byte) {
    ('A' as int <= b <= 'Z' as int) || ('a' as int <= b <= 'z' as int) || ('0' as int <= b <= '9' as int)
    || b == '_' as int || b == '.' as int || b == '-' as int || b == '~' as int
  }

  const Space: byte := 0x20

  function HexDigit(n: nat): (r: char)
    requires n < 16
  {
    "0123456789ABCDEF"[n]
  }

  /** The value of an upper-case hexadecimal digit, as the decoder reads it. */
  function HexValue(c: char): (r: Option<nat>) {
    if '0' <= c <= '9' then Some(c as int - '0' as int)
    else if 'A' <= c <= 'F' then Some(c as int - 'A' as int + 10)
    else None
  }

  /** What `quote_plus` writes for one byte. */
  function QuoteByte(b: byte): (r: string) {
    if Unreserved(b) then [b as char]
    else if b == Space then "+"
    else ['%', HexDigit(b / 16), HexDigit(b % 16)]
  }

  function QuoteBytes(bs: seq<byte>): (r: string)
    decreases |bs|
  {
    if bs == [] then [] else QuoteByte(bs[0]) + QuoteBytes(bs[1..])
  }

  /** `quote_plus(s)`. */
  function QuotePlus(s: string): (r: string) {
    QuoteBytes(Utf8Encode(s))
  }

  /** The characters an encoded value is made of. */
  predicate EncodedChar(c: char) {
    (c as int < 0x80 && Unreserved(c as int)) || c == '+' || c == '%'
  }

  /**
   * A strict decoder for what QuotePlus produces: `+` is a space, `%XX` is
   * one byte, an unreserved character is its own byte; anything else fails.
   */
  function UnquotePlus(s: string): (r: Option<seq<byte>>)
    decreases |s|
  {
    if s == [] then Some([])
    else if s[0] == '+' then
      match UnquotePlus(s[1..])
      case None => None
      case Some(rest) => Some([Space] + rest)
    else if s[0] == '%' then
      if |s| < 3 then None
      else match (HexValue(s[1]), HexValue(s[2]))
        case (Some(hi), Some(lo)) =>
          (match UnquotePlus(s[3..])
           case None => None
           case Some(rest) => Some([hi * 16 + lo] + rest))
        case _ => None
    else if s[0] as int < 0x80 && Unreserved(s[0] as int) then
      match UnquotePlus(s[1..])
      case None => None
      case Some(rest) => Some([s[0] as int] + rest)
    else None
  }

  lemma QuoteByteChars(b: byte)
    ensures forall i :: 0 <= i < |QuoteByte(b)| ==> EncodedChar(QuoteByte(b)[i]) || HexValue(QuoteByte(b)[i]).Some?
  {
  }

  /**
   * Every character of an encoded value is an unreserved ASCII character,
   * `+`, `%` or an upper-case hex digit; in particular it is never `&`,
   * `=`, `?` or a space, so encoded values cannot break a query string apart.
   */
  lemma {:induction false} QuoteBytesChars(bs: seq<byte>)
    ensures forall i :: 0 <= i < |QuoteBytes(bs)| ==>
      EncodedChar(QuoteBytes(bs)[i]) || HexValue(QuoteBytes(bs)[i]).Some?
    ensures '&' !in QuoteBytes(bs) && '=' !in QuoteBytes(bs) && '?' !in QuoteBytes(bs) && ' ' !in QuoteBytes(bs)
    decreases |bs|
  {
    if bs != [] {
      QuoteByteChars(bs[0]);
      QuoteBytesChars(bs[1..]);
      var q := QuoteBytes(bs);
      assert q == QuoteByte(bs[0]) + QuoteBytes(bs[1..]);
      forall i | 0 <= i < |q| ensures EncodedChar(q[i]) || HexValue(q[i]).Some? {
        if i >= |QuoteByte(bs[0])| {
          assert q[i] == QuoteBytes(bs[1..])[i - |QuoteByte(bs[0])|];
        }
      }
      assert forall i :: 0 <= i < |q| ==> q[i] != '&' && q[i] != '=' && q[i] != '?' && q[i] != ' ';
    }
  }

  lemma QuotePlusSafe(s: string)
    ensures '&' !in QuotePlus(s) && '=' !in QuotePlus(s) && '?' !in QuotePlus(s) && ' ' !in QuotePlus(s)
  {
    QuoteBytesChars(Utf8Encode(s));
  }

  lemma UnquoteQuoteByte(b: byte, rest: string)
    ensures UnquotePlus(QuoteByte(b) + rest) ==
      match UnquotePlus(rest)
      case None => None
      case Some(r) => Some([b] + r)
  {
    var q := QuoteByte(b) + rest;
    if Unreserved(b) {
      assert q[1..] == rest;
    } else if b == Space {
      assert q[1..] == rest;
    } else {
      assert q[3..] == rest;
      assert HexValue(HexDigit(b / 16)) == Some(b / 16);
      assert HexValue(HexDigit(b % 16)) == Some(b % 16);
    }
  }

  /** Decoding an encoded byte string gives the bytes back: quote_plus loses nothing. */
  lemma {:induction false} UnquoteQuoteBytes(bs: seq<byte>)
    ensures UnquotePlus(QuoteBytes(bs)) == Some(bs)
    decreases |bs|
  {
    if bs != [] {
      UnquoteQuoteBytes(bs[1..]);
      UnquoteQuoteByte(bs[0], QuoteBytes(bs[1..]));
      assert [bs[0]] + bs[1..] == bs;
    }
  }

  /** `unquote_plus(quote_plus(s))` recovers the UTF-8 bytes of s. */
  lemma UnquoteQuotePlus(s: string)
    ensures UnquotePlus(QuotePlus(s)) == Some(Utf8Encode(s))
  {
    UnquoteQuoteBytes(Utf8Encode(s));
  }

  /** Text made only of unreserved ASCII characters is left as it is. */
  lemma {:induction false} QuotePlusKeepsUnreserved(s: string)
    requires forall i :: 0 <= i < |s| ==> s[i] as int < 0x80 && Unreserved(s[i] as int)
    ensures QuotePlus(s) == s
    decreases |s|
  {
    if s != [] {
      QuotePlusKeepsUnreserved(s[1..]);
      assert Utf8Encode(s) == [s[0] as int] + Utf8Encode(s[1..]);
      assert QuotePlus(s) == [s[0]] + QuotePlus(s[1..]);
      assert [s[0]] + s[1..] == s;
    }
  }
}
