/**
 * Python's `urllib.parse.quote_plus` with its defaults (`safe=''`, UTF-8):
 * the string is UTF-8 encoded, every byte in the always-safe set (the
 * unreserved characters of section 2.3 of RFC 3986) is kept, a space byte
 * becomes `+` (the application/x-www-form-urlencoded serializer of section
 * 5.2 of the WHATWG URL Standard), and every other byte becomes `%XX` with
 * upper-case hexadecimal digits (section 2.1 of RFC 3986).
 */
module FormEncoding {
  import opened Outcomes
  import Utf8

  type byte = Utf8.byte

  /** Bytes `quote_plus` never escapes: ASCII letters, digits and `_.-~`. */
  predicate Unreserved(b: int) {
    || 'A' as int <= b <= 'Z' as int
    || 'a' as int <= b <= 'z' as int
    || '0' as int <= b <= '9' as int
    || b == '_' as int || b == '.' as int || b == '-' as int || b == '~' as int
  }

  const HexDigits: string := "0123456789ABCDEF"

  /** Characters that can appear in an encoded value. */
  predicate EncodedChar(c: char) {
    Unreserved(c as int) || c == '+' || c == '%'
  }

  /** The text that stands for one byte. */
  function QuoteByte(b: byte): (r: string)
    ensures forall c | c in r :: EncodedChar(c)
  {
    if Unreserved(b) then [b as char]
    else if b == 0x20 then "+"
    else ['%', HexDigits[b / 16], HexDigits[b % 16]]
  }

  function QuoteBytes(bs: seq<byte>): (r: string)
    ensures forall c | c in r :: EncodedChar(c)
  {
    if bs == [] then "" else QuoteByte(bs[0]) + QuoteBytes(bs[1..])
  }

  /** `urllib.parse.quote_plus(s)`. */
  function QuotePlus(s: string): (r: string)
    ensures forall c | c in r :: EncodedChar(c)
    ensures '&' !in r && '=' !in r && ' ' !in r
  {
    QuoteBytes(Utf8.Encode(s))
  }

  /** The value of a hexadecimal digit of either case. */
  function HexValue(c: char): Option<nat>
  {
    if '0' <= c <= '9' then Some(c as int - '0' as int)
    else if 'A' <= c <= 'F' then Some(c as int - 'A' as int + 10)
    else if 'a' <= c <= 'f' then Some(c as int - 'a' as int + 10)
    else None
  }

  /**
   * The bytes an encoded text stands for: `+` is a space, `%XX` is the byte
   * XX, any other ASCII character other than `%` is its own byte.
   */
  function UnquoteBytes(s: string): Option<seq<byte>>
    decreases |s|
  {
    if s == [] then Some([])
    else if s[0] == '+' then
      match UnquoteBytes(s[1..])
      case None => None
      case Some(rest) => Some([0x20] + rest)
    else if s[0] == '%' then
      if |s| < 3 then None
      else match (HexValue(s[1]), HexValue(s[2]))
        case (Some(hi), Some(lo)) =>
          (match UnquoteBytes(s[3..])
           case None => None
           case Some(rest) => Some([hi * 16 + lo] + rest))
        case _ => None
    else if s[0] as int < 0x80 then
      match UnquoteBytes(s[1..])
      case None => None
      case Some(rest) => Some([s[0] as int] + rest)
    else
      None
  }

  /** The inverse of `QuotePlus`: unescape, then decode UTF-8. */
  function UnquotePlus(s: string): Option<string>
  {
    match UnquoteBytes(s)
    case None => None
    case Some(bs) => Utf8.Decode(bs)
  }

  lemma HexRoundTrip(b: byte)
    ensures HexValue(HexDigits[b / 16]) == Some(b / 16)
    ensures HexValue(HexDigits[b % 16]) == Some(b % 16)
  {
  }

  /** One byte's text is read back as that byte, whatever follows it. */
  lemma UnquoteQuoteByte(b: byte, rest: string)
    ensures UnquoteBytes(QuoteByte(b) + rest) ==
      match UnquoteBytes(rest)
      case None => None
      case Some(tail) => Some([b] + tail)
  {
    var s := QuoteByte(b) + rest;
    if Unreserved(b) {
      assert s[1..] == rest;
    } else if b == 0x20 {
      assert s[1..] == rest;
    } else {
      HexRoundTrip(b);
      assert s[3..] == rest;
      assert (b / 16) * 16 + b % 16 == b;
    }
  }

  lemma {:induction false} UnquoteQuoteBytes(bs: seq<byte>)
    ensures UnquoteBytes(QuoteBytes(bs)) == Some(bs)
  {
    if bs != [] {
      UnquoteQuoteByte(bs[0], QuoteBytes(bs[1..]));
      UnquoteQuoteBytes(bs[1..]);
      assert [bs[0]] + bs[1..] == bs;
    }
  }

  /** Decoding an encoded string gives the string back. */
  lemma UnquoteQuotePlus(s: string)
    ensures UnquotePlus(QuotePlus(s)) == Some(s)
  {
    UnquoteQuoteBytes(Utf8.Encode(s));
    Utf8.DecodeEncode(s);
  }

  lemma {:induction false} QuoteUnreservedBytes(bs: seq<byte>)
    requires forall i :: 0 <= i < |bs| ==> Unreserved(bs[i])
    ensures QuoteBytes(bs) == seq(|bs|, i requires 0 <= i < |bs| => bs[i] as char)
  {
    if bs != [] {
      QuoteUnreservedBytes(bs[1..]);
    }
  }

  /** A string made only of unreserved characters is its own encoding. */
  lemma QuotePlusUnreserved(s: string)
    requires forall i :: 0 <= i < |s| ==> Unreserved(s[i] as int)
    ensures QuotePlus(s) == s
  {
    Utf8.EncodeAscii(s);
    var bs := Utf8.Encode(s);
    QuoteUnreservedBytes(bs);
  }

  lemma {:induction false} QuoteBytesConcat(a: seq<byte>, b: seq<byte>)
    ensures QuoteBytes(a + b) == QuoteBytes(a) + QuoteBytes(b)
  {
    if a != [] {
      assert (a + b)[1..] == a[1..] + b;
      QuoteBytesConcat(a[1..], b);
    } else {
      assert a + b == b;
    }
  }

  /** Encoding a concatenation encodes the parts one after the other. */
  lemma QuotePlusConcat(a: string, b: string)
    ensures QuotePlus(a + b) == QuotePlus(a) + QuotePlus(b)
  {
    Utf8.EncodeConcat(a, b);
    QuoteBytesConcat(Utf8.Encode(a), Utf8.Encode(b));
  }
}
