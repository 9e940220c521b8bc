/** Percent-encoding of a query string as Python's `urllib.parse.quote(q)`
    does it with its default arguments (safe='/', UTF-8): every character
    outside the unreserved set of section 2.3 of RFC 3986 and '/' becomes the
    `%XX` escapes of its UTF-8 bytes (section 2.1 of RFC 3986). The decoder is
    the partner the properties are stated against: `unquote_to_bytes`
    followed by strict UTF-8 decoding. */
module UrlQuote {
  import opened Values

  type Byte = b: int | 0 <= b < 256

  /** Characters `quote` leaves as they are. */
  predicate IsSafe(c: char)
  {
    'A' <= c <= 'Z' || 'a' <= c <= 'z' || '0' <= c <= '9' ||
    c == '_' || c == '.' || c == '-' || c == '~' || c == '/'
  }

  predicate IsUpperHex(c: char)
  {
    '0' <= c <= '9' || 'A' <= c <= 'F'
  }

  /** The UTF-8 encoding of one Unicode scalar value. */
  function Utf8Char(c: char): (bs: seq<Byte>)
    ensures 1 <= |bs| <= 4
    ensures |bs| == 1 <==> c as int < 0x80
    ensures |bs| == 1 ==> bs[0] == c as int
  {
    var cp := c as int;
    if cp < 0x80 then [cp]
    else if cp < 0x800 then [0xC0 + cp / 64, 0x80 + cp % 64]
    else if cp < 0x10000 then [0xE0 + cp / 4096, 0x80 + (cp / 64) % 64, 0x80 + cp % 64]
    else [0xF0 + cp / 262144, 0x80 + (cp / 4096) % 64, 0x80 + (cp / 64) % 64, 0x80 + cp % 64]
  }

  /** `s.encode('utf-8')` */
  function Utf8(s: string): seq<Byte>
  {
    if s == [] then [] else Utf8Char(s[0]) + Utf8(s[1..])
  }

  function HexDigit(d: nat): (c: char)
    requires d < 16
    ensures IsUpperHex(c)
  {
    if d < 10 then ('0' as int + d) as char else ('A' as int + d - 10) as char
  }

  /** One byte as `quote_from_bytes` writes it: itself when safe, else `%XX`. */
  function QuoteByte(b: Byte): string
  {
    if b < 128 && IsSafe(b as char) then [b as char] else ['%', HexDigit(b / 16), HexDigit(b % 16)]
  }

  /** `quote_from_bytes(bs, safe='/')`: its output consists of safe characters,
      `%` and upper-case hex digits only. */
  function QuoteBytes(bs: seq<Byte>): (t: string)
    ensures forall i :: 0 <= i < |t| ==> IsSafe(t[i]) || t[i] == '%' || IsUpperHex(t[i])
  {
    if bs == [] then "" else QuoteByte(bs[0]) + QuoteBytes(bs[1..])
  }

  /** `urllib.parse.quote(s)` */
  function Quote(s: string): string
  {
    QuoteBytes(Utf8(s))
  }

  /** The encoded query cannot change the structure of the URL it is placed
      in: it holds no space, no `&` or `=` (parameter delimiters), no `?`,
      no `#` and no `+` (which a form decoder reads as a space). */
  lemma QuoteHasNoDelimiters(s: string)
    ensures forall i :: 0 <= i < |Quote(s)| ==>
      Quote(s)[i] !in {' ', '&', '=', '?', '#', '+'}
  {
  }

  /** A query made only of safe characters is put into the URL unchanged. */
  lemma {:induction false} QuoteSafeIsIdentity(s: string)
    requires forall i :: 0 <= i < |s| ==> IsSafe(s[i])
    ensures Quote(s) == s
  {
    if s != [] {
      QuoteSafeIsIdentity(s[1..]);
      assert Utf8Char(s[0]) == [s[0] as int];
      assert Utf8(s) == [s[0] as int] + Utf8(s[1..]);
      assert QuoteBytes(Utf8(s)) == QuoteByte(s[0] as int) + QuoteBytes(Utf8(s[1..]));
    }
  }

  lemma {:induction false} Utf8Append(a: string, b: string)
    ensures Utf8(a + b) == Utf8(a) + Utf8(b)
  {
    if a == [] {
      assert a + b == b;
    } else {
      assert (a + b)[1..] == a[1..] + b;
      Utf8Append(a[1..], b);
    }
  }

  lemma {:induction false} QuoteBytesAppend(a: seq<Byte>, b: seq<Byte>)
    ensures QuoteBytes(a + b) == QuoteBytes(a) + QuoteBytes(b)
  {
    if a == [] {
      assert a + b == b;
    } else {
      assert (a + b)[1..] == a[1..] + b;
      QuoteBytesAppend(a[1..], b);
    }
  }

  /** Quoting works character by character. */
  lemma QuoteAppend(a: string, b: string)
    ensures Quote(a + b) == Quote(a) + Quote(b)
  {
    Utf8Append(a, b);
    QuoteBytesAppend(Utf8(a), Utf8(b));
  }

  // ---------------------------------------------------------------------
  // The decoding partner

  function HexValue(c: char): (r: Option<nat>)
    ensures r.Some? ==> r.value < 16
  {
    if '0' <= c <= '9' then Some(c as int - '0' as int)
    else if 'A' <= c <= 'F' then Some(c as int - 'A' as int + 10)
    else if 'a' <= c <= 'f' then Some(c as int - 'a' as int + 10)
    else None
  }

  /** `urllib.parse.unquote_to_bytes(t)`: a `%` followed by two hex digits is
      one byte; every other character stands for its UTF-8 bytes. */
  function PercentDecode(t: string): seq<Byte>
  {
    if t == [] then []
    else if t[0] == '%' && |t| >= 3 && HexValue(t[1]).Some? && HexValue(t[2]).Some? then
      [16 * HexValue(t[1]).value + HexValue(t[2]).value] + PercentDecode(t[3..])
    else Utf8Char(t[0]) + PercentDecode(t[1..])
  }

  predicate IsContinuation(b: Byte)
  {
    0x80 <= b < 0xC0
  }

  /** The first character of a UTF-8 byte sequence and its length in bytes;
      `None` for a malformed, overlong or surrogate encoding. */
  function DecodeFirst(bs: seq<Byte>): (r: Option<(char, nat)>)
    requires bs != []
    ensures r.Some? ==> 1 <= r.value.1 <= |bs|
  {
    var b0 := bs[0] as int;
    if b0 < 0x80 then Some((b0 as char, 1))
    else if 0xC2 <= b0 < 0xE0 && |bs| >= 2 && IsContinuation(bs[1]) then
      Some((((b0 - 0xC0) * 64 + (bs[1] as int - 0x80)) as char, 2))
    else if 0xE0 <= b0 < 0xF0 && |bs| >= 3 && IsContinuation(bs[1]) && IsContinuation(bs[2]) then
      var cp := (b0 - 0xE0) * 4096 + (bs[1] as int - 0x80) * 64 + (bs[2] as int - 0x80);
      if 0x800 <= cp && !(0xD800 <= cp < 0xE000) then Some((cp as char, 3)) else None
    else if 0xF0 <= b0 < 0xF5 && |bs| >= 4 && IsContinuation(bs[1]) && IsContinuation(bs[2]) &&
            IsContinuation(bs[3]) then
      var cp := (b0 - 0xF0) * 262144 + (bs[1] as int - 0x80) * 4096 + (bs[2] as int - 0x80) * 64 + (bs[3] as int - 0x80);
      if 0x10000 <= cp <= 0x10FFFF then Some((cp as char, 4)) else None
    else None
  }

  /** `bs.decode('utf-8')` in strict mode; `None` where Python raises. */
  function Utf8Decode(bs: seq<Byte>): Option<string>
    decreases |bs|
  {
    if bs == [] then Some([])
    else
      match DecodeFirst(bs)
      case None => None
      case Some((c, n)) =>
        match Utf8Decode(bs[n..])
        case None => None
        case Some(rest) => Some([c] + rest)
  }

  /** `urllib.parse.unquote(t)` on well-formed input. */
  function Unquote(t: string): Option<string>
  {
    Utf8Decode(PercentDecode(t))
  }

  lemma TwoByteDigits(cp: int)
    requires 0x80 <= cp < 0x800
    ensures 0xC2 <= 0xC0 + cp / 64 < 0xE0
    ensures (cp / 64) * 64 + cp % 64 == cp
  {
  }

  lemma ThreeByteDigits(cp: int)
    requires 0x800 <= cp < 0x10000
    ensures 0xE0 <= 0xE0 + cp / 4096 < 0xF0
    ensures (cp / 4096) * 4096 + ((cp / 64) % 64) * 64 + cp % 64 == cp
  {
  }

  lemma FourByteDigits(cp: int)
    requires 0x10000 <= cp <= 0x10FFFF
    ensures 0xF0 <= 0xF0 + cp / 262144 < 0xF5
    ensures (cp / 262144) * 262144 + ((cp / 4096) % 64) * 4096 + ((cp / 64) % 64) * 64 + cp % 64 == cp
  {
    var q1 := cp / 64;
    var q2 := q1 / 64;
    assert cp == 64 * q1 + cp % 64;
    assert q1 == 64 * q2 + q1 % 64;
    assert cp == 4096 * q2 + (64 * (q1 % 64) + cp % 64);
    assert q2 == cp / 4096;
    assert q1 % 64 == (cp / 64) % 64;
    assert q2 == 64 * (q2 / 64) + q2 % 64;
    assert cp == 262144 * (q2 / 64) + (4096 * (q2 % 64) + 64 * (q1 % 64) + cp % 64);
    assert q2 / 64 == cp / 262144;
  }

  lemma DecodeFirstOfEncoded(c: char, rest: seq<Byte>)
    ensures DecodeFirst(Utf8Char(c) + rest) == Some((c, |Utf8Char(c)|))
  {
    var cp := c as int;
    var bs := Utf8Char(c) + rest;
    if cp < 0x80 {
    } else if cp < 0x800 {
      TwoByteDigits(cp);
      assert bs[0] == 0xC0 + cp / 64 && bs[1] == 0x80 + cp % 64;
    } else if cp < 0x10000 {
      ThreeByteDigits(cp);
      assert bs[0] == 0xE0 + cp / 4096 && bs[1] == 0x80 + (cp / 64) % 64 && bs[2] == 0x80 + cp % 64;
    } else {
      FourByteDigits(cp);
      assert bs[0] == 0xF0 + cp / 262144 && bs[1] == 0x80 + (cp / 4096) % 64;
      assert bs[2] == 0x80 + (cp / 64) % 64 && bs[3] == 0x80 + cp % 64;
    }
  }

  /** UTF-8 decoding undoes UTF-8 encoding. */
  lemma {:induction false} Utf8RoundTrip(s: string)
    ensures Utf8Decode(Utf8(s)) == Some(s)
  {
    if s != [] {
      var head := Utf8Char(s[0]);
      DecodeFirstOfEncoded(s[0], Utf8(s[1..]));
      assert (head + Utf8(s[1..]))[|head|..] == Utf8(s[1..]);
      Utf8RoundTrip(s[1..]);
      assert [s[0]] + s[1..] == s;
    }
  }

  /** Percent-decoding undoes `quote_from_bytes`. */
  lemma {:induction false} PercentRoundTrip(bs: seq<Byte>)
    ensures PercentDecode(QuoteBytes(bs)) == bs
  {
    if bs != [] {
      PercentRoundTrip(bs[1..]);
      ByteRoundTrip(bs[0], QuoteBytes(bs[1..]));
      assert bs == [bs[0]] + bs[1..];
    }
  }

  /** Decoding the escape of one byte followed by any text gives the byte,
      then the decoding of that text. */
  lemma ByteRoundTrip(b: Byte, t: string)
    ensures PercentDecode(QuoteByte(b) + t) == [b] + PercentDecode(t)
  {
    var e := QuoteByte(b) + t;
    if b < 128 && IsSafe(b as char) {
      assert e[0] == b as char && e[1..] == t;
      assert Utf8Char(b as char) == [b];
    } else {
      var hi, lo := HexDigit(b / 16), HexDigit(b % 16);
      assert e[0] == '%' && e[1] == hi && e[2] == lo && e[3..] == t;
      assert HexValue(hi) == Some(b / 16);
      assert HexValue(lo) == Some(b % 16);
    }
  }

  /** The query the server decodes is the query the caller wrote. */
  lemma QuoteRoundTrip(s: string)
    ensures Unquote(Quote(s)) == Some(s)
  {
    PercentRoundTrip(Utf8(s));
    Utf8RoundTrip(s);
  }
}
