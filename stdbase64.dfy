/** The standard base64 alphabet and padded encoding of RFC 4648 section 4
    (Go's base64.StdEncoding.EncodeToString), used to turn a SHA-256 digest
    into a PKCE code challenge. */
module StdBase64 {
  import opened Text

  type byte = x: int | 0 <= x < 256

  /** Table 1 of RFC 4648: the symbol for a 6-bit value. */
  function Symbol(v: nat): (c: char)
    requires v < 64
    ensures IsSymbol(c) && c != '='
  {
    if v < 26 then ('A' as int + v) as char
    else if v < 52 then ('a' as int + v - 26) as char
    else if v < 62 then ('0' as int + v - 52) as char
    else if v == 62 then '+'
    else '/'
  }

  /** The characters of Table 1 of RFC 4648. */
  predicate IsSymbol(c: char)
  {
    'A' <= c <= 'Z' || 'a' <= c <= 'z' || '0' <= c <= '9' || c == '+' || c == '/'
  }

  /** A well-formed padded encoding: whole quanta of four characters, every
      character from the alphabet except one or two `=` that close it. */
  predicate IsStdBase64(s: string)
  {
    && |s| % 4 == 0
    && forall i :: 0 <= i < |s| ==>
         IsSymbol(s[i]) || (i >= |s| - 2 && s[i] == '=' && s[|s| - 1] == '=')
  }

  /** Number of `=` an encoding of `n` bytes ends with. */
  function PadLength(n: nat): nat
  {
    (3 - n % 3) % 3
  }

  function Quantum(d0: byte, d1: byte, d2: byte): (q: string)
    ensures |q| == 4 && forall i :: 0 <= i < 4 ==> IsSymbol(q[i])
  {
    [Symbol(d0 / 4), Symbol((d0 % 4) * 16 + d1 / 16), Symbol((d1 % 16) * 4 + d2 / 64), Symbol(d2 % 64)]
  }

  /** The last, partial group of one or two bytes: zero-filled and padded
      with `==` or `=`. */
  function FinalQuantum(data: seq<byte>): (r: string)
    requires 1 <= |data| <= 2
    ensures |r| == 4 && IsStdBase64(r)
    ensures Count(r, '=') == PadLength(|data|)
  {
    if |data| == 1 then
      var q := Quantum(data[0], 0, 0);
      assert Count(['='], '=') == 1;
      CountAppend([q[0], q[1]], ['='], '=');
      CountAppend([q[0], q[1]] + ['='], ['='], '=');
      [q[0], q[1]] + ['='] + ['=']
    else
      var q := Quantum(data[0], data[1], 0);
      assert Count(['='], '=') == 1;
      CountAppend([q[0], q[1], q[2]], ['='], '=');
      [q[0], q[1], q[2]] + ['=']
  }

  lemma PrependQuantum(q: string, rest: string)
    requires |q| == 4 && forall i :: 0 <= i < 4 ==> IsSymbol(q[i])
    requires IsStdBase64(rest)
    ensures IsStdBase64(q + rest)
    ensures Count(q + rest, '=') == Count(rest, '=')
  {
    var r := q + rest;
    assert forall i :: 4 <= i < |r| ==> r[i] == rest[i - 4];
    CountAppend(q, rest, '=');
  }

  /** Encode `data` three bytes at a time. */
  function Encode(data: seq<byte>): (r: string)
    ensures |r| == 4 * ((|data| + 2) / 3)
    ensures IsStdBase64(r)
    ensures Count(r, '=') == PadLength(|data|)
  {
    if |data| == 0 then ""
    else if |data| <= 2 then FinalQuantum(data)
    else
      var q := Quantum(data[0], data[1], data[2]);
      var rest := Encode(data[3..]);
      var n := |data|;
      assert (n + 2) / 3 == (n - 3 + 2) / 3 + 1;
      assert PadLength(n) == PadLength(n - 3);
      PrependQuantum(q, rest);
      q + rest
  }
}
