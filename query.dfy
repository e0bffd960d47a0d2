/** Go's url.QueryEscape: characters outside the unreserved set of RFC 3986
    section 2.3 are written as %XX per byte of their UTF-8 encoding, and a
    space as `+`. */
module QueryEscaping {
  import opened Wrappers
  import StdBase64
  import Text

  type byte = StdBase64.byte

  /** Characters url.QueryEscape leaves as they are. */
  predicate IsUnreserved(c: char)
  {
    'A' <= c <= 'Z' || 'a' <= c <= 'z' || '0' <= c <= '9' || c == '-' || c == '_' || c == '.' || c == '~'
  }

  /** Characters an escaped query component consists of. */
  predicate IsEscapedChar(c: char)
  {
    IsUnreserved(c) || c == '%' || c == '+'
  }

  /** The UTF-8 encoding of one scalar value (RFC 3629 section 3). */
  function Utf8(c: char): (bs: seq<byte>)
    ensures |bs| == Text.Utf8Width(c)
    ensures |bs| == 1 ==> bs[0] == c as int
  {
    var v := c as int;
    if v < 0x80 then [v]
    else if v < 0x800 then [0xC0 + v / 64, 0x80 + v % 64]
    else if v < 0x10000 then [0xE0 + v / 4096, 0x80 + v / 64 % 64, 0x80 + v % 64]
    else [0xF0 + v / 262144, 0x80 + v / 4096 % 64, 0x80 + v / 64 % 64, 0x80 + v % 64]
  }

  function UpperHex(d: nat): (c: char)
    requires d < 16
    ensures IsUnreserved(c) && IsHex(c) && HexValue(c) == d
  {
    if d < 10 then ('0' as int + d) as char else ('A' as int + d - 10) as char
  }

  predicate IsHex(c: char)
  {
    '0' <= c <= '9' || 'A' <= c <= 'F' || 'a' <= c <= 'f'
  }

  function HexValue(c: char): (d: nat)
    requires IsHex(c)
    ensures d < 16
  {
    if c <= '9' then c as int - '0' as int
    else if c <= 'F' then c as int - 'A' as int + 10
    else c as int - 'a' as int + 10
  }

  /** `%XX` for each byte, upper-case hex. */
  function PercentEncode(bs: seq<byte>): (r: string)
    ensures |r| == 3 * |bs|
    ensures forall i :: 0 <= i < |r| ==> IsEscapedChar(r[i])
  {
    if bs == [] then ""
    else ['%', UpperHex(bs[0] / 16), UpperHex(bs[0] % 16)] + PercentEncode(bs[1..])
  }

  function EscapeChar(c: char): (r: string)
    ensures 1 <= |r| <= 12
    ensures forall i :: 0 <= i < |r| ==> IsEscapedChar(r[i])
    ensures IsUnreserved(c) <==> r == [c]
  {
    if IsUnreserved(c) then [c]
    else if c == ' ' then "+"
    else PercentEncode(Utf8(c))
  }

  /** url.QueryEscape. */
  function QueryEscape(s: string): (r: string)
    ensures |s| <= |r| <= 12 * |s|
    ensures forall i :: 0 <= i < |r| ==> IsEscapedChar(r[i])
  {
    if s == [] then "" else EscapeChar(s[0]) + QueryEscape(s[1..])
  }

  /** An escaped component holds none of the query delimiters. */
  lemma EscapedHasNoDelimiters(s: string)
    ensures var r := QueryEscape(s);
      '&' !in r && '=' !in r && '#' !in r && '?' !in r && ' ' !in r
  {
    var r := QueryEscape(s);
    forall i | 0 <= i < |r| ensures r[i] != '&' && r[i] != '=' && r[i] != '#' && r[i] != '?' && r[i] != ' ' {
      assert IsEscapedChar(r[i]);
    }
  }

  /** Text made of unreserved characters is not changed. */
  lemma {:induction false} QueryEscapeUnreserved(s: string)
    requires forall i :: 0 <= i < |s| ==> IsUnreserved(s[i])
    ensures QueryEscape(s) == s
  {
    if s != [] {
      QueryEscapeUnreserved(s[1..]);
      assert s == [s[0]] + s[1..];
    }
  }

  /** Decoding of an escaped component whose characters are all ASCII:
      `+` is a space and `%XX` (XX below 0x80) the byte XX. */
  function UnescapeAscii(s: string): (r: Option<string>)
    decreases |s|
  {
    if s == [] then Some("")
    else if s[0] == '+' then
      var rest := UnescapeAscii(s[1..]);
      if rest.Some? then Some(" " + rest.value) else None
    else if s[0] == '%' then
      if |s| >= 3 && IsHex(s[1]) && IsHex(s[2]) && HexValue(s[1]) < 8 then
        var rest := UnescapeAscii(s[3..]);
        if rest.Some? then Some([(HexValue(s[1]) * 16 + HexValue(s[2])) as char] + rest.value) else None
      else None
    else
      var rest := UnescapeAscii(s[1..]);
      if rest.Some? then Some([s[0]] + rest.value) else None
  }

  lemma UnescapeChar(c: char, tail: string)
    requires c as int < 0x80
    requires UnescapeAscii(tail).Some?
    ensures UnescapeAscii(EscapeChar(c) + tail) == Some([c] + UnescapeAscii(tail).value)
  {
    var e := EscapeChar(c);
    if IsUnreserved(c) {
      assert (e + tail)[0] == c && (e + tail)[1..] == tail;
    } else if c == ' ' {
      assert (e + tail)[0] == '+' && (e + tail)[1..] == tail;
    } else {
      var v := c as int;
      assert e == ['%', UpperHex(v / 16), UpperHex(v % 16)];
      assert (e + tail)[3..] == tail;
      assert (v / 16 * 16 + v % 16) as char == c;
    }
  }

  /** Decoding undoes url.QueryEscape on ASCII text. */
  lemma {:induction false} QueryEscapeRoundTrip(s: string)
    requires forall i :: 0 <= i < |s| ==> s[i] as int < 0x80
    ensures UnescapeAscii(QueryEscape(s)) == Some(s)
  {
    if s != [] {
      QueryEscapeRoundTrip(s[1..]);
      UnescapeChar(s[0], QueryEscape(s[1..]));
      assert [s[0]] + s[1..] == s;
    }
  }
}
