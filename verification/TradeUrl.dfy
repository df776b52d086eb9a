/** The trade link of an event market (`lib/polymarket.ts`): the event page
    when the market has a slug, otherwise a search for its question, encoded
    with `encodeURIComponent` (UTF-8 bytes of every character outside the
    unreserved set, as `%XX` with upper-case hex digits). A percent decoder is
    given as the encoder's inverse. */
module TradeUrl {
  import opened Base

  const PolymarketBase: string := "https://polymarket.com"

  /** The characters `encodeURIComponent` leaves alone. */
  predicate Unreserved(c: char)
  {
    || 'A' <= c <= 'Z' || 'a' <= c <= 'z' || '0' <= c <= '9'
    || c == '-' || c == '_' || c == '.' || c == '!' || c == '~' || c == '*' || c == '\'' || c == '(' || c == ')'
  }

  predicate IsHexDigit(c: char)
  {
    '0' <= c <= '9' || 'A' <= c <= 'F'
  }

  /** The characters an encoded component may contain. */
  predicate UrlSafe(c: char)
  {
    Unreserved(c) || c == '%'
  }

  function HexDigit(d: nat): (c: char)
    requires d < 16
    ensures IsHexDigit(c) && Unreserved(c)
  {
    if d < 10 then ('0' as int + d) as char else ('A' as int + d - 10) as char
  }

  function HexValue(c: char): (d: nat)
    requires IsHexDigit(c)
    ensures d < 16
  {
    if c <= '9' then c as int - '0' as int else c as int - 'A' as int + 10
  }

  lemma HexRoundTrip(d: nat)
    requires d < 16
    ensures HexValue(HexDigit(d)) == d
  {
  }

  /** The UTF-8 encoding of a Unicode scalar value. */
  function Utf8(c: char): (bs: seq<nat>)
    ensures 1 <= |bs| <= 4
    ensures forall i :: 0 <= i < |bs| ==> bs[i] < 256
  {
    var v := c as int;
    if v < 0x80 then [v]
    else if v < 0x800 then [0xC0 + v / 64, 0x80 + v % 64]
    else if v < 0x10000 then [0xE0 + v / 4096, 0x80 + (v / 64) % 64, 0x80 + v % 64]
    else [0xF0 + v / 262144, 0x80 + (v / 4096) % 64, 0x80 + (v / 64) % 64, 0x80 + v % 64]
  }

  /** `%XX` for every byte. */
  function PercentBytes(bs: seq<nat>): (t: string)
    requires forall i :: 0 <= i < |bs| ==> bs[i] < 256
    ensures |t| == 3 * |bs|
    ensures forall i :: 0 <= i < |t| ==> UrlSafe(t[i])
  {
    if bs == [] then [] else ['%', HexDigit(bs[0] / 16), HexDigit(bs[0] % 16)] + PercentBytes(bs[1..])
  }

  function EncodeChar(c: char): (t: string)
    ensures |t| > 0
    ensures forall i :: 0 <= i < |t| ==> UrlSafe(t[i])
  {
    if Unreserved(c) then [c] else PercentBytes(Utf8(c))
  }

  /** `encodeURIComponent`. */
  function Encode(s: string): (t: string)
    ensures |t| >= |s|
    ensures forall i :: 0 <= i < |t| ==> UrlSafe(t[i])
  {
    if s == [] then [] else EncodeChar(s[0]) + Encode(s[1..])
  }

  /** The number of bytes a UTF-8 sequence with this lead byte has (0 for a
      byte that cannot lead). */
  function SequenceLength(b: nat): nat
  {
    if b < 0x80 then 1
    else if 0xC0 <= b < 0xE0 then 2
    else if 0xE0 <= b < 0xF0 then 3
    else if 0xF0 <= b < 0xF8 then 4
    else 0
  }

  /** The code point of a complete UTF-8 sequence, if well-formed. */
  function Utf8Value(bs: seq<nat>): Option<int>
  {
    if |bs| == 0 || SequenceLength(bs[0]) != |bs| then None
    else if exists i :: 1 <= i < |bs| && !(0x80 <= bs[i] < 0xC0) then None
    else if |bs| == 1 then Some(bs[0])
    else if |bs| == 2 then Some((bs[0] - 0xC0) * 64 + (bs[1] - 0x80))
    else if |bs| == 3 then Some(((bs[0] - 0xE0) * 64 + (bs[1] - 0x80)) * 64 + (bs[2] - 0x80))
    else Some((((bs[0] - 0xF0) * 64 + (bs[1] - 0x80)) * 64 + (bs[2] - 0x80)) * 64 + (bs[3] - 0x80))
  }

  /** Decoding the UTF-8 bytes of a character gives the character back. */
  lemma Utf8RoundTrip(c: char)
    ensures SequenceLength(Utf8(c)[0]) == |Utf8(c)|
    ensures Utf8Value(Utf8(c)) == Some(c as int)
  {
    var v := c as int;
    var bs := Utf8(c);
    if v < 0x80 {
    } else if v < 0x800 {
      assert bs[0] - 0xC0 == v / 64;
    } else if v < 0x10000 {
      assert bs[0] - 0xE0 == v / 4096;
      assert (v / 4096) * 64 + (v / 64) % 64 == v / 64;
    } else {
      assert bs[0] - 0xF0 == v / 262144;
      assert (v / 262144) * 64 + (v / 4096) % 64 == v / 4096;
      assert (v / 4096) * 64 + (v / 64) % 64 == v / 64;
    }
  }

  /** The bytes of `n` consecutive `%XX` groups at the start of `t`. */
  function ReadBytes(t: string, n: nat): Option<seq<nat>>
    decreases n
  {
    if n == 0 then Some([])
    else if |t| < 3 || t[0] != '%' || !IsHexDigit(t[1]) || !IsHexDigit(t[2]) then None
    else
      match ReadBytes(t[3..], n - 1)
      case None => None
      case Some(rest) => Some([HexValue(t[1]) * 16 + HexValue(t[2])] + rest)
  }

  lemma {:induction false} ReadBytesOfPercent(bs: seq<nat>, rest: string)
    requires forall i :: 0 <= i < |bs| ==> bs[i] < 256
    ensures ReadBytes(PercentBytes(bs) + rest, |bs|) == Some(bs)
  {
    if bs != [] {
      var t := PercentBytes(bs) + rest;
      assert t[3..] == PercentBytes(bs[1..]) + rest;
      HexRoundTrip(bs[0] / 16);
      HexRoundTrip(bs[0] % 16);
      ReadBytesOfPercent(bs[1..], rest);
      assert [bs[0]] + bs[1..] == bs;
    }
  }

  predicate IsScalar(v: int)
  {
    (0 <= v < 0xD800) || (0xE000 <= v < 0x11_0000)
  }

  /** Decodes the first character of `t`: a `%`-encoded UTF-8 sequence or a
      literal character. */
  function DecodeOne(t: string): (r: Option<(char, string)>)
    requires |t| > 0
    ensures r.Some? ==> |r.value.1| < |t|
  {
    if t[0] != '%' then Some((t[0], t[1..]))
    else if |t| < 3 || !IsHexDigit(t[1]) || !IsHexDigit(t[2]) then None
    else
      var n := SequenceLength(HexValue(t[1]) * 16 + HexValue(t[2]));
      if n == 0 || |t| < 3 * n then None
      else
        match ReadBytes(t, n)
        case None => None
        case Some(bs) =>
          match Utf8Value(bs)
          case None => None
          case Some(v) => if IsScalar(v) then Some((v as char, t[3 * n..])) else None
  }

  /** `decodeURIComponent`, `None` for a malformed sequence. */
  function Decode(t: string): Option<string>
    decreases |t|
  {
    if t == [] then Some([])
    else
      match DecodeOne(t)
      case None => None
      case Some((c, rest)) =>
        match Decode(rest)
        case None => None
        case Some(s) => Some([c] + s)
  }

  lemma DecodeOneOfEncodeChar(c: char, rest: string)
    ensures DecodeOne(EncodeChar(c) + rest) == Some((c, rest))
  {
    if !Unreserved(c) {
      var bs := Utf8(c);
      var t := PercentBytes(bs) + rest;
      Utf8RoundTrip(c);
      ReadBytesOfPercent(bs, rest);
      HexRoundTrip(bs[0] / 16);
      HexRoundTrip(bs[0] % 16);
      assert t[0] == '%' && t[1] == HexDigit(bs[0] / 16) && t[2] == HexDigit(bs[0] % 16);
      assert t[3 * |bs|..] == rest;
    }
  }

  /** Round trip: decoding an encoded component gives it back. */
  lemma {:induction false} DecodeEncode(s: string)
    ensures Decode(Encode(s)) == Some(s)
  {
    if s != [] {
      DecodeOneOfEncodeChar(s[0], Encode(s[1..]));
      DecodeEncode(s[1..]);
      assert [s[0]] + s[1..] == s;
    }
  }

  /** `getPolymarketTradeUrl` (lines 9-15). */
  function GetPolymarketTradeUrl(slug: Option<string>, question: string): (url: string)
  {
    if Truthy(slug) then PolymarketBase + "/event/" + slug.value
    else PolymarketBase + "/events?q=" + Encode(question)
  }

  const SearchPrefix: string := PolymarketBase + "/events?q="

  /** A non-empty slug links to the event page verbatim; otherwise the link
      searches for the question, whose encoding contains only unreserved
      characters and `%` (no `&`, `#` or space can end the parameter) and
      decodes back to the question. */
  lemma TradeUrlShape(slug: Option<string>, question: string)
    ensures Truthy(slug) ==> GetPolymarketTradeUrl(slug, question) == PolymarketBase + "/event/" + slug.value
    ensures !Truthy(slug) ==>
              var url := GetPolymarketTradeUrl(slug, question);
              var q := url[|SearchPrefix|..];
              && |url| >= |SearchPrefix| && url[..|SearchPrefix|] == SearchPrefix
              && (forall i :: 0 <= i < |q| ==> UrlSafe(q[i]))
              && Decode(q) == Some(question)
  {
    if !Truthy(slug) {
      var url := GetPolymarketTradeUrl(slug, question);
      assert url == SearchPrefix + Encode(question);
      assert url[|SearchPrefix|..] == Encode(question);
      DecodeEncode(question);
    }
  }

  /** A question made only of unreserved characters is used as it is; a
      space becomes `%20`. */
  lemma EncodeExamples()
    ensures Encode("abc") == "abc"
    ensures Encode(" ") == "%20"
  {
    assert EncodeChar(' ') == "%20";
  }
}
