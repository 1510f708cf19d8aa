/**
 * services/sse.py: `sse_line({"content": s})`, i.e.
 * `("data: " + json.dumps({"content": s}) + "\n\n").encode("utf-8")`.
 *
 * `json.dumps` keeps its defaults: separators `", "`/`": "` and
 * `ensure_ascii=True`, so the string is escaped as section 7 of RFC 8259
 * allows: `"` and `\` are backslash-escaped, `\b \f \n \r \t` get their
 * two-character escapes, and every other character outside printable ASCII
 * is written as lower-case `\uXXXX` (two of them, a UTF-16 surrogate pair,
 * above U+FFFF).
 * The event is a `data:` line followed by a blank line, the format of
 * section 9.2 of the WHATWG HTML Living Standard.
 */
module Sse {
  import opened Wrappers

  newtype byte = x: int | 0 <= x < 0x100

  function HexDigit(d: nat): (c: char)
    requires d < 16
  {
    if d < 10 then ('0' as int + d) as char else ('a' as int + d - 10) as char
  }

  predicate IsHex(c: char)
  {
    '0' <= c <= '9' || 'a' <= c <= 'f' || 'A' <= c <= 'F'
  }

  function HexValue(c: char): (v: nat)
    requires IsHex(c)
    ensures v < 16
  {
    if '0' <= c <= '9' then c as int - '0' as int
    else if 'a' <= c <= 'f' then c as int - 'a' as int + 10
    else c as int - 'A' as int + 10
  }

  /** Four lower-case hex digits of a 16-bit code unit, most significant first. */
  function Hex4(u: nat): (h: string)
    requires u < 0x10000
    ensures |h| == 4 && forall i :: 0 <= i < 4 ==> IsHex(h[i])
  {
    var a := u / 16;
    var b := a / 16;
    [HexDigit(b / 16), HexDigit(b % 16), HexDigit(a % 16), HexDigit(u % 16)]
  }

  /** The 16-bit value of four hex digits (either case). */
  function Hex4Value(h: string): (u: nat)
    requires |h| == 4 && forall i :: 0 <= i < 4 ==> IsHex(h[i])
    ensures u < 0x10000
  {
    ((HexValue(h[0]) * 16 + HexValue(h[1])) * 16 + HexValue(h[2])) * 16 + HexValue(h[3])
  }

  lemma HexDigitValue(d: nat)
    requires d < 16
    ensures IsHex(HexDigit(d)) && HexValue(HexDigit(d)) == d
  {
  }

  lemma Hex4RoundTrip(u: nat)
    requires u < 0x10000
    ensures Hex4Value(Hex4(u)) == u
  {
    var a := u / 16;
    var b := a / 16;
    var d0, d1, d2, d3 := b / 16, b % 16, a % 16, u % 16;
    HexDigitValue(d0);
    HexDigitValue(d1);
    HexDigitValue(d2);
    HexDigitValue(d3);
    var h := Hex4(u);
    assert h == [HexDigit(d0), HexDigit(d1), HexDigit(d2), HexDigit(d3)];
    assert Hex4Value(h) == ((d0 * 16 + d1) * 16 + d2) * 16 + d3;
    assert d0 * 16 + d1 == b;
    assert b * 16 + d2 == a;
    assert a * 16 + d3 == u;
  }

  /** `\uXXXX` for one UTF-16 code unit. */
  function UnicodeEscape(u: nat): (e: string)
    requires u < 0x10000
    ensures |e| == 6
  {
    "\\u" + Hex4(u)
  }

  /** The text `json.dumps` writes for one character inside a string literal. */
  function EscapeChar(c: char): string
  {
    var n := c as int;
    if c == '"' then "\\\""
    else if c == '\\' then "\\\\"
    else if c == '\n' then "\\n"
    else if c == '\r' then "\\r"
    else if c == '\t' then "\\t"
    else if n == 8 then "\\b"
    else if n == 12 then "\\f"
    else if 0x20 <= n < 0x7F then [c]
    else if n < 0x10000 then UnicodeEscape(n)
    else UnicodeEscape(0xD800 + (n - 0x10000) / 0x400) + UnicodeEscape(0xDC00 + (n - 0x10000) % 0x400)
  }

  /** The body of the JSON string literal for `s` (without the quotes). */
  function Escape(s: string): string
  {
    if s == [] then "" else EscapeChar(s[0]) + Escape(s[1..])
  }

  predicate Printable(c: char)
  {
    0x20 <= c as int < 0x7F
  }

  lemma EscapeCharPrintable(c: char)
    ensures forall i :: 0 <= i < |EscapeChar(c)| ==> Printable(EscapeChar(c)[i])
  {
  }

  /** With `ensure_ascii`, the escaped text is printable ASCII only: in
      particular it holds no raw line feed or carriage return. */
  lemma {:induction false} EscapePrintable(s: string)
    ensures forall i :: 0 <= i < |Escape(s)| ==> Printable(Escape(s)[i])
  {
    if s != [] {
      EscapeCharPrintable(s[0]);
      EscapePrintable(s[1..]);
      var e, r := EscapeChar(s[0]), Escape(s[1..]);
      assert forall i :: |e| <= i < |e + r| ==> (e + r)[i] == r[i - |e|];
    }
  }

  const DataPrefix := "data: "
  const ContentOpen := "{\"content\": \""
  const ContentClose := "\"}"
  const EventEnd := "\n\n"

  /** `json.dumps({"content": s})`. */
  function JsonContent(s: string): string
  {
    ContentOpen + Escape(s) + ContentClose
  }

  /** The frame as text, before UTF-8 encoding. */
  function EventText(s: string): string
  {
    DataPrefix + JsonContent(s) + EventEnd
  }

  /** UTF-8 encoding of one code point. */
  function Utf8Char(c: char): (b: seq<byte>)
    ensures 1 <= |b| <= 4
    ensures (|b| == 1) == (c as int < 0x80)
  {
    var n := c as int;
    if n < 0x80 then [n as byte]
    else if n < 0x800 then [(0xC0 + n / 0x40) as byte, (0x80 + n % 0x40) as byte]
    else if n < 0x10000 then
      [(0xE0 + n / 0x1000) as byte, (0x80 + n / 0x40 % 0x40) as byte, (0x80 + n % 0x40) as byte]
    else
      [(0xF0 + n / 0x40000) as byte, (0x80 + n / 0x1000 % 0x40) as byte,
       (0x80 + n / 0x40 % 0x40) as byte, (0x80 + n % 0x40) as byte]
  }

  /** `str.encode("utf-8")`. */
  function Utf8(s: string): seq<byte>
  {
    if s == [] then [] else Utf8Char(s[0]) + Utf8(s[1..])
  }

  predicate IsAscii(s: string)
  {
    forall i :: 0 <= i < |s| ==> s[i] as int < 0x80
  }

  /** On ASCII text UTF-8 writes one byte per character, equal to its code. */
  lemma {:induction false} Utf8OfAscii(s: string)
    requires IsAscii(s)
    ensures |Utf8(s)| == |s|
    ensures forall i :: 0 <= i < |s| ==> Utf8(s)[i] as int == s[i] as int
  {
    if s != [] {
      Utf8OfAscii(s[1..]);
    }
  }

  /** `sse_line({"content": s})`: total, defined for every string. */
  function SseLine(s: string): seq<byte>
  {
    Utf8(EventText(s))
  }

  /** The text of a frame is printable ASCII except for its final two line feeds. */
  lemma EventTextShape(s: string)
    ensures |EventText(s)| >= |DataPrefix| + |EventEnd|
    ensures EventText(s)[..|DataPrefix|] == DataPrefix
    ensures EventText(s)[|EventText(s)| - 2..] == EventEnd
    ensures forall i :: 0 <= i < |EventText(s)| - 2 ==> Printable(EventText(s)[i])
    ensures IsAscii(EventText(s))
  {
    EscapePrintable(s);
    var j := JsonContent(s);
    assert forall i :: 0 <= i < |j| ==> Printable(j[i]) by {
      var e := Escape(s);
      assert forall i :: |ContentOpen| <= i < |ContentOpen| + |e| ==> j[i] == e[i - |ContentOpen|];
    }
  }

  /** Every frame starts with `data: ` and ends with a blank line, its UTF-8
      bytes are as many as its characters, and no line feed or carriage
      return occurs before the final two bytes: one call is one event. */
  lemma {:induction false} SseLineShape(s: string)
    ensures |SseLine(s)| == |EventText(s)|
    ensures forall i :: 0 <= i < |SseLine(s)| ==> SseLine(s)[i] as int == EventText(s)[i] as int
    ensures SseLine(s)[..6] == [100, 97, 116, 97, 58, 32]
    ensures SseLine(s)[|SseLine(s)| - 2..] == [10, 10]
    ensures forall i :: 0 <= i < |SseLine(s)| - 2 ==> SseLine(s)[i] != 10 && SseLine(s)[i] != 13
  {
    EventTextShape(s);
    var t := EventText(s);
    Utf8OfAscii(t);
    var b := SseLine(s);
    assert t[..6] == DataPrefix;
    assert b[..6] == [100, 97, 116, 97, 58, 32] by {
      forall i | 0 <= i < 6 ensures b[i] as int == DataPrefix[i] as int { assert t[i] == DataPrefix[i]; }
    }
    assert t[|t| - 2] == '\n' && t[|t| - 1] == '\n' by {
      assert t[|t| - 2..] == EventEnd;
      assert t[|t| - 2..][0] == t[|t| - 2];
    }
    assert b[|b| - 2..] == [10, 10];
  }

  // ----- decoding ----------------------------------------------------------

  /** Bytes read as ASCII text; `None` when a byte is not ASCII. */
  function AsciiText(b: seq<byte>): (r: Option<string>)
    ensures r.Some? ==> |r.value| == |b|
  {
    if b == [] then Some([])
    else if b[0] >= 0x80 then None
    else match AsciiText(b[1..])
      case None => None
      case Some(rest) => Some([b[0] as int as char] + rest)
  }

  lemma {:induction false} AsciiTextOfUtf8(s: string)
    requires IsAscii(s)
    ensures AsciiText(Utf8(s)) == Some(s)
  {
    if s != [] {
      AsciiTextOfUtf8(s[1..]);
      var b := Utf8(s);
      assert b == [s[0] as int as byte] + Utf8(s[1..]);
      assert b[1..] == Utf8(s[1..]);
      assert b[0] as int as char == s[0];
      assert [s[0]] + s[1..] == s;
    }
  }

  function Prepend(c: char, o: Option<string>): Option<string>
  {
    match o
    case None => None
    case Some(r) => Some([c] + r)
  }

  predicate IsHex4(t: string)
  {
    |t| == 4 && forall i :: 0 <= i < 4 ==> IsHex(t[i])
  }

  /** The client's strict reading of a JSON string-literal body of the kind
      the encoder writes: `None` for a raw quote or control character, a bad
      escape, or a `\uXXXX` surrogate code unit that is not part of a pair
      (which the encoder never writes, because a `char` is a Unicode scalar
      value). */
  function Unescape(t: string): Option<string>
    decreases |t|, 1
  {
    if t == [] then Some([])
    else if t[0] == '\\' then UnescapeSequence(t)
    else if t[0] == '"' || t[0] as int < 0x20 then None
    else Prepend(t[0], Unescape(t[1..]))
  }

  /** A body that starts with a backslash. */
  function UnescapeSequence(t: string): Option<string>
    requires t != [] && t[0] == '\\'
    decreases |t|, 0
  {
    if |t| < 2 then None
    else if t[1] == '"' then Prepend('"', Unescape(t[2..]))
    else if t[1] == '\\' then Prepend('\\', Unescape(t[2..]))
    else if t[1] == '/' then Prepend('/', Unescape(t[2..]))
    else if t[1] == 'n' then Prepend('\n', Unescape(t[2..]))
    else if t[1] == 'r' then Prepend('\r', Unescape(t[2..]))
    else if t[1] == 't' then Prepend('\t', Unescape(t[2..]))
    else if t[1] == 'b' then Prepend(8 as char, Unescape(t[2..]))
    else if t[1] == 'f' then Prepend(12 as char, Unescape(t[2..]))
    else if t[1] == 'u' && |t| >= 6 && IsHex4(t[2..6]) then UnescapeUnicode(Hex4Value(t[2..6]), t[6..])
    else None
  }

  /** After a `\uXXXX` escape of code unit `u`: a code point outside the
      surrogate range stands for itself; a high surrogate must be followed by
      a `\uXXXX` low surrogate, and the pair denotes one code point above U+FFFF. */
  function UnescapeUnicode(u: nat, t: string): Option<string>
    requires u < 0x10000
    decreases |t| + 1, 0
  {
    if u < 0xD800 || 0xE000 <= u then Prepend(u as char, Unescape(t))
    else if 0xDC00 <= u then None
    else if |t| >= 6 && t[0] == '\\' && t[1] == 'u' && IsHex4(t[2..6])
            && 0xDC00 <= Hex4Value(t[2..6]) < 0xE000 then
      Prepend(CombineSurrogates(u, Hex4Value(t[2..6])) as char, Unescape(t[6..]))
    else None
  }

  function CombineSurrogates(hi: nat, lo: nat): (cp: nat)
    requires 0xD800 <= hi < 0xDC00 && 0xDC00 <= lo < 0xE000
    ensures 0x10000 <= cp < 0x110000
  {
    0x10000 + (hi - 0xD800) * 0x400 + (lo - 0xDC00)
  }

  lemma CombineSplit(n: nat)
    requires 0x10000 <= n < 0x110000
    ensures var m := n - 0x10000; CombineSurrogates(0xD800 + m / 0x400, 0xDC00 + m % 0x400) == n
  {
    var m := n - 0x10000;
    assert m / 0x400 * 0x400 + m % 0x400 == m;
  }

  lemma UnescapeUnit(u: nat, rest: string)
    requires u < 0x10000
    ensures (UnicodeEscape(u) + rest)[2..6] == Hex4(u)
    ensures (UnicodeEscape(u) + rest)[6..] == rest
  {
  }

  /** A `\uXXXX` escape is read as its code unit, the rest left to `UnescapeUnicode`. */
  lemma UnescapeOfUnit(u: nat, rest: string)
    requires u < 0x10000
    ensures Unescape(UnicodeEscape(u) + rest) == UnescapeUnicode(u, rest)
  {
    var t := UnicodeEscape(u) + rest;
    UnescapeUnit(u, rest);
    Hex4RoundTrip(u);
    assert t[0] == '\\' && t[1] == 'u';
    assert Unescape(t) == UnescapeSequence(t);
  }

  lemma UnescapeLowTail(hi: nat, lo: nat, rest: string)
    requires 0xD800 <= hi < 0xDC00 && 0xDC00 <= lo < 0xE000
    ensures UnescapeUnicode(hi, UnicodeEscape(lo) + rest) == Prepend(CombineSurrogates(hi, lo) as char, Unescape(rest))
  {
    var tail := UnicodeEscape(lo) + rest;
    UnescapeUnit(lo, rest);
    Hex4RoundTrip(lo);
    assert tail[0] == '\\' && tail[1] == 'u';
  }

  lemma UnescapeShort(c: char, rest: string)
    requires var n := c as int;
      c == '"' || c == '\\' || c == '\n' || c == '\r' || c == '\t' || n == 8 || n == 12
    ensures Unescape(EscapeChar(c) + rest) == Prepend(c, Unescape(rest))
  {
    var t := EscapeChar(c) + rest;
    assert |EscapeChar(c)| == 2 && t[0] == '\\';
    assert t[2..] == rest;
  }

  lemma UnescapeBmp(c: char, rest: string)
    requires var n := c as int; n < 0x10000 && !(0x20 <= n < 0x7F)
    requires var n := c as int; c != '\n' && c != '\r' && c != '\t' && n != 8 && n != 12
    ensures Unescape(EscapeChar(c) + rest) == Prepend(c, Unescape(rest))
  {
    var n := c as int;
    assert EscapeChar(c) == UnicodeEscape(n);
    UnescapeOfUnit(n, rest);
    assert (n as char) == c;
  }

  lemma UnescapePair(c: char, rest: string)
    requires c as int >= 0x10000
    ensures Unescape(EscapeChar(c) + rest) == Prepend(c, Unescape(rest))
  {
    var m := c as int - 0x10000;
    var hi, lo := 0xD800 + m / 0x400, 0xDC00 + m % 0x400;
    SurrogatesOf(c);
    EscapeAboveBmp(c);
    Reassociate(UnicodeEscape(hi), UnicodeEscape(lo), rest);
    UnescapeOfUnit(hi, UnicodeEscape(lo) + rest);
    UnescapeLowTail(hi, lo, rest);
  }

  /** The surrogate pair of a character above U+FFFF: a high and a low
      surrogate that combine back to the character. */
  lemma SurrogatesOf(c: char)
    requires c as int >= 0x10000
    ensures var m := c as int - 0x10000;
      var hi, lo := 0xD800 + m / 0x400, 0xDC00 + m % 0x400;
      && 0xD800 <= hi < 0xDC00 && 0xDC00 <= lo < 0xE000
      && CombineSurrogates(hi, lo) as char == c
  {
    var n := c as int;
    var m := n - 0x10000;
    assert 0 <= m < 0x100000;
    CombineSplit(n);
  }

  /** A character above U+FFFF is written as its surrogate pair. */
  lemma EscapeAboveBmp(c: char)
    requires c as int >= 0x10000
    ensures var m := c as int - 0x10000;
      EscapeChar(c) == UnicodeEscape(0xD800 + m / 0x400) + UnicodeEscape(0xDC00 + m % 0x400)
  {
  }

  /** Reading back the escape of one character yields that character. */
  lemma UnescapeChar(c: char, rest: string)
    ensures Unescape(EscapeChar(c) + rest) == Prepend(c, Unescape(rest))
  {
    var n := c as int;
    if c == '"' || c == '\\' || c == '\n' || c == '\r' || c == '\t' || n == 8 || n == 12 {
      UnescapeShort(c, rest);
    } else if 0x20 <= n < 0x7F {
      assert (EscapeChar(c) + rest)[1..] == rest;
    } else if n < 0x10000 {
      UnescapeBmp(c, rest);
    } else {
      UnescapePair(c, rest);
    }
  }

  /** Decoding the escaped text gives back the original string, for every string. */
  lemma {:induction false} UnescapeEscape(s: string)
    ensures Unescape(Escape(s)) == Some(s)
  {
    if s != [] {
      UnescapeEscape(s[1..]);
      UnescapeChar(s[0], Escape(s[1..]));
      assert [s[0]] + s[1..] == s;
    }
  }

  /** The client's reading of `json.loads(j)["content"]` for the one payload shape used, with the strict `Unescape`. */
  function DecodeJsonContent(j: string): Option<string>
  {
    if |j| >= |ContentOpen| + |ContentClose| && j[..|ContentOpen|] == ContentOpen
       && j[|j| - |ContentClose|..] == ContentClose
    then Unescape(j[|ContentOpen|..|j| - |ContentClose|])
    else None
  }

  /** Decoding the JSON payload gives back its `content`, for every string. */
  lemma JsonContentRoundTrip(s: string)
    ensures DecodeJsonContent(JsonContent(s)) == Some(s)
  {
    UnescapeEscape(s);
    var j := JsonContent(s);
    assert j[..|ContentOpen|] == ContentOpen;
    assert j[|ContentOpen|..|j| - |ContentClose|] == Escape(s);
  }

  /** The `content` of a `data: {"content": "..."}` event text. */
  function DecodeEventText(t: string): Option<string>
  {
    if |t| >= |DataPrefix| + |EventEnd| && t[..|DataPrefix|] == DataPrefix
       && t[|t| - |EventEnd|..] == EventEnd
    then DecodeJsonContent(t[|DataPrefix|..|t| - |EventEnd|])
    else None
  }

  /** The `content` carried by one frame's bytes. */
  function DecodeFrame(f: seq<byte>): Option<string>
  {
    match AsciiText(f)
    case None => None
    case Some(t) => DecodeEventText(t)
  }

  /** Round trip: stripping the prefix and suffix of a frame and decoding
      the JSON returns the original `content`, for every string. */
  lemma FrameRoundTrip(s: string)
    ensures DecodeFrame(SseLine(s)) == Some(s)
  {
    var t := EventText(s);
    EventTextShape(s);
    AsciiTextOfUtf8(t);
    JsonContentRoundTrip(s);
    assert t[..|DataPrefix|] == DataPrefix;
    assert t[|DataPrefix|..|t| - |EventEnd|] == JsonContent(s);
  }
}
