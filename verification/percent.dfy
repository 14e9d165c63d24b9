/**
 * Percent-encoding of query parameters, as `urllib.parse.quote` does it with
 * its default `safe='/'`: the unreserved characters of section 2.3 of
 * RFC 3986 and `/` are kept, every other character is encoded in UTF-8 and
 * each byte written as `%XX` with upper-case hexadecimal digits (section 2.1
 * of RFC 3986). The decoder below inverts the encoding on ASCII text.
 */
module PercentEncoding {
  import opened Values

  type Byte = b: int | 0 <= b < 256

  /** The unreserved characters of section 2.3 of RFC 3986. */
  predicate IsUnreserved(c: char)
  {
    ('A' <= c <= 'Z') || ('a' <= c <= 'z') || ('0' <= c <= '9') ||
    c == '-' || c == '.' || c == '_' || c == '~'
  }

  /** Characters `quote` leaves as they are: the unreserved ones and `/`. */
  predicate IsSafe(c: char)
  {
    IsUnreserved(c) || c == '/'
  }

  predicate IsAscii(s: string)
  {
    forall k :: 0 <= k < |s| ==> s[k] as int < 128
  }

  /** An upper-case hexadecimal digit, the only case `quote` writes. */
  predicate IsUpperHex(c: char)
  {
    ('0' <= c <= '9') || ('A' <= c <= 'F')
  }

  /** The upper-case hexadecimal digit of `n`, which reads back as `n`. */
  function HexDigit(n: nat): (c: char)
    requires n < 16
    ensures IsUpperHex(c) && IsUnreserved(c)
    ensures IsHexDigit(c) && HexValue(c) == n
  {
    if n < 10 then ('0' as int + n) as char else ('A' as int + n - 10) as char
  }

  predicate IsHexDigit(c: char)
  {
    ('0' <= c <= '9') || ('A' <= c <= 'F') || ('a' <= c <= 'f')
  }

  function HexValue(c: char): (n: nat)
    requires IsHexDigit(c)
    ensures n < 16
  {
    if '0' <= c <= '9' then c as int - '0' as int
    else if 'A' <= c <= 'F' then c as int - 'A' as int + 10
    else c as int - 'a' as int + 10
  }

  /** The UTF-8 encoding of one Unicode scalar value. */
  function Utf8(c: char): (bytes: seq<Byte>)
    ensures 1 <= |bytes| <= 4
    ensures (|bytes| == 1) == (c as int < 128)
    ensures |bytes| == 1 ==> bytes[0] == c as int
  {
    var cp := c as int;
    if cp < 0x80 then [cp]
    else if cp < 0x800 then [0xC0 + cp / 64, 0x80 + cp % 64]
    else if cp < 0x1_0000 then [0xE0 + cp / 4096, 0x80 + (cp / 64) % 64, 0x80 + cp % 64]
    else [0xF0 + cp / 262144, 0x80 + (cp / 4096) % 64, 0x80 + (cp / 64) % 64, 0x80 + cp % 64]
  }

  /** Every `%` is followed by two upper-case hexadecimal digits. */
  predicate EscapesUpperCase(s: string)
  {
    forall k :: 0 <= k < |s| && s[k] == '%' ==> k + 2 < |s| && IsUpperHex(s[k + 1]) && IsUpperHex(s[k + 2])
  }

  lemma EscapesUpperCaseAppend(a: string, b: string)
    requires EscapesUpperCase(a) && EscapesUpperCase(b)
    ensures EscapesUpperCase(a + b)
  {
    forall k | 0 <= k < |a + b| && (a + b)[k] == '%'
      ensures k + 2 < |a + b| && IsUpperHex((a + b)[k + 1]) && IsUpperHex((a + b)[k + 2])
    {
      if k < |a| {
        assert a[k] == '%';
      } else {
        assert b[k - |a|] == '%';
      }
    }
  }

  /** `%XX` for each byte. */
  function EncodeBytes(bytes: seq<Byte>): (s: string)
    ensures |s| == 3 * |bytes|
    ensures forall k :: 0 <= k < |s| ==> IsUnreserved(s[k]) || s[k] == '%'
    ensures EscapesUpperCase(s)
  {
    if bytes == [] then []
    else
      var e := ['%', HexDigit(bytes[0] / 16), HexDigit(bytes[0] % 16)];
      EscapesUpperCaseAppend(e, EncodeBytes(bytes[1..]));
      e + EncodeBytes(bytes[1..])
  }

  function QuoteChar(c: char): (s: string)
    ensures forall k :: 0 <= k < |s| ==> IsSafe(s[k]) || s[k] == '%'
    ensures EscapesUpperCase(s)
  {
    if IsSafe(c) then [c] else EncodeBytes(Utf8(c))
  }

  /**
   * `urllib.parse.quote(s)`. Its output holds only safe characters and `%`,
   * so it never contains the `&`, `=` and `?` that delimit a query string,
   * and it writes its escapes in upper case (`%3D`, never `%3d`).
   */
  function Quote(s: string): (r: string)
    ensures forall k :: 0 <= k < |r| ==> IsSafe(r[k]) || r[k] == '%'
    ensures EscapesUpperCase(r)
    ensures |r| >= |s|
  {
    if s == [] then []
    else
      EscapesUpperCaseAppend(QuoteChar(s[0]), Quote(s[1..]));
      QuoteChar(s[0]) + Quote(s[1..])
  }

  /**
   * Percent-decoding restricted to ASCII: `%XX` with two hexadecimal digits
   * (either case) naming a byte below 128 stands for that character, every
   * other character stands for itself, and any other `%` is malformed.
   */
  function PercentDecode(s: string): (r: Option<string>)
    decreases |s|
  {
    if s == [] then Some([])
    else if s[0] == '%' then
      if |s| >= 3 && IsHexDigit(s[1]) && IsHexDigit(s[2]) &&
         HexValue(s[1]) * 16 + HexValue(s[2]) < 128
      then
        match PercentDecode(s[3..])
        case None => None
        case Some(rest) => Some([(HexValue(s[1]) * 16 + HexValue(s[2])) as char] + rest)
      else None
    else
      match PercentDecode(s[1..])
      case None => None
      case Some(rest) => Some([s[0]] + rest)
  }

  lemma {:induction false} QuoteAppend(a: string, b: string)
    ensures Quote(a + b) == Quote(a) + Quote(b)
    decreases |a|
  {
    if a != [] {
      assert (a + b)[0] == a[0] && (a + b)[1..] == a[1..] + b;
      QuoteAppend(a[1..], b);
      calc {
        Quote(a + b);
        QuoteChar(a[0]) + Quote(a[1..] + b);
        QuoteChar(a[0]) + (Quote(a[1..]) + Quote(b));
        (QuoteChar(a[0]) + Quote(a[1..])) + Quote(b);
      }
    } else {
      assert a + b == b;
    }
  }

  /** Decoding consumes the quoted form of one ASCII character and yields it. */
  lemma DecodeQuoteChar(c: char, t: string)
    requires c as int < 128
    ensures PercentDecode(QuoteChar(c) + t) ==
            match PercentDecode(t)
            case None => None
            case Some(rest) => Some([c] + rest)
  {
    var s := QuoteChar(c) + t;
    if IsSafe(c) {
      assert s[0] == c && s[1..] == t;
    } else {
      var b := c as int;
      assert Utf8(c) == [b];
      assert QuoteChar(c) == ['%', HexDigit(b / 16), HexDigit(b % 16)];
      assert s[3..] == t;
    }
  }

  /** Decoding the quoted form of ASCII text gives the text back. */
  lemma {:induction false} QuoteRoundTrip(s: string)
    requires IsAscii(s)
    ensures PercentDecode(Quote(s)) == Some(s)
    decreases |s|
  {
    if s != [] {
      QuoteRoundTrip(s[1..]);
      DecodeQuoteChar(s[0], Quote(s[1..]));
      assert [s[0]] + s[1..] == s;
    }
  }

  /** Quoting changes nothing exactly when every character is safe. */
  lemma {:induction false} QuoteIdentity(s: string)
    ensures Quote(s) == s <==> forall k :: 0 <= k < |s| ==> IsSafe(s[k])
    decreases |s|
  {
    if s != [] {
      QuoteIdentity(s[1..]);
      if !IsSafe(s[0]) {
        assert |Quote(s)| >= 3 + |s| - 1;
      }
      assert forall k :: 1 <= k < |s| ==> s[k] == s[1..][k - 1];
    }
  }

  /** An ASCII character that is not safe becomes `%` and its two upper-case hex digits. */
  lemma QuoteUnsafeAscii(c: char)
    requires c as int < 128 && !IsSafe(c)
    ensures Quote([c]) == ['%', HexDigit(c as int / 16), HexDigit(c as int % 16)]
  {
    assert Utf8(c) == [c as int];
    assert [c][1..] == [];
  }

  /** The escape of one unsafe ASCII character, given its two digits. */
  lemma EscapeOf(c: char, hi: char, lo: char)
    requires c as int < 128 && !IsSafe(c)
    requires hi == HexDigit(c as int / 16) && lo == HexDigit(c as int % 16)
    ensures Quote([c]) == ['%', hi, lo]
  {
    QuoteUnsafeAscii(c);
  }

  /** The escapes of `'`, `=` and `{` are `%27`, `%3D` and `%7B`. */
  lemma QuoteEscapeExamples()
    ensures Quote("'") == "%27" && Quote("=") == "%3D" && Quote("{") == "%7B"
  {
    EscapeOf('\'', '2', '7');
    EscapeOf('=', '3', 'D');
    EscapeOf('{', '7', 'B');
  }

  lemma IsAsciiAppend(a: string, b: string)
    ensures IsAscii(a + b) <==> IsAscii(a) && IsAscii(b)
  {
    assert forall k :: 0 <= k < |a| ==> a[k] == (a + b)[k];
    assert forall k :: 0 <= k < |b| ==> b[k] == (a + b)[|a| + k];
  }
}
