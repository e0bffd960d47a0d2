/** The pure helpers of helpers/helpers.go: durations as friendly text,
    base64 <-> base64url conversion (RFC 4648 sections 4 and 5) and the
    body of a JWT compact serialization (RFC 7515 section 7.1). */
module Helpers {
  import opened Text
  import opened Wrappers
  import StdBase64

  // ---------------------------------------------------------------------
  // Durations

  /** Go's integer `/`, which truncates toward zero. */
  function GoDiv(a: int, b: int): (q: int)
    requires b > 0
    ensures a >= 0 ==> q == a / b
  {
    if a >= 0 then a / b else -((-a) / b)
  }

  /** Go's integer `%`, whose result takes the sign of the dividend. */
  function GoMod(a: int, b: int): int
    requires b > 0
  {
    a - GoDiv(a, b) * b
  }

  /** Hours, minutes and seconds as SecondsToFriendlyString computes them. */
  function Clock(seconds: int): (int, int, int)
  {
    (GoDiv(seconds, 3600), GoDiv(GoMod(seconds, 3600), 60), GoMod(seconds, 60))
  }

  /** The three numbers add back up to the input and the minutes and
      seconds stay below 60; all three have the sign of the input. */
  lemma ClockDecomposes(seconds: int)
    ensures var (h, m, s) := Clock(seconds);
      && h * 3600 + m * 60 + s == seconds
      && -60 < m < 60 && -60 < s < 60
      && (seconds >= 0 ==> h >= 0 && 0 <= m < 60 && 0 <= s < 60)
      && (seconds <= 0 ==> h <= 0 && m <= 0 && s <= 0)
  {
    var a := if seconds >= 0 then seconds else -seconds;
    assert a == (a / 3600) * 3600 + (a % 3600);
    assert a % 3600 == ((a % 3600) / 60) * 60 + (a % 3600) % 60;
    assert (a % 3600) % 60 == a % 60;
  }

  /** "<value> <unit>", with an `s` unless the value is exactly 1. */
  function NumToPluralString(value: int, unit: string): string
  {
    var str := IntToString(value) + " " + unit;
    if value != 1 then str + "s" else str
  }

  function SecondsToFriendlyString(seconds: int): string
  {
    var (h, m, s) := Clock(seconds);
    FriendlyText(h, m, s)
  }

  /** The text SecondsToFriendlyString builds from its three numbers. */
  function FriendlyText(h: int, m: int, s: int): string
  {
    var hStr := if h > 0 then NumToPluralString(h, "hour") + ", " else "";
    var mStr := if m > 0 || h > 0 then NumToPluralString(m, "minute") + " and " else "";
    var sStr := NumToPluralString(s, "second");
    hStr + mStr + sStr
  }

  lemma IntToStringNoSpace(i: int)
    ensures ' ' !in IntToString(i)
  {
    var r := IntToString(i);
    if i >= 0 {
      assert forall k :: 0 <= k < |r| ==> IsDigit(r[k]);
    } else {
      var d := NatToString(-i);
      assert forall k :: 0 <= k < |d| ==> IsDigit(d[k]);
      assert forall k :: 1 <= k < |r| ==> r[k] == d[k - 1];
    }
  }

  /** Two "<number> <word>..." texts whose words begin differently: the
      first is not a prefix of the second. */
  lemma DifferentUnit(a: string, ua: string, b: string, ub: string)
    requires ' ' !in a && ' ' !in b
    requires |ua| >= 1 && |ub| >= 1 && ua[0] != ub[0]
    ensures !StartsWith(b + " " + ub, a + " " + ua)
  {
    var x, y := a + " " + ua, b + " " + ub;
    var k := if |a| < |b| then |a| else if |a| > |b| then |b| else |a| + 1;
    assert k < |x| && k < |y|;
    if |a| < |b| {
      assert x[k] == ' ' && y[k] == b[k];
    } else if |a| > |b| {
      assert y[k] == ' ' && x[k] == a[k];
    } else {
      assert x[k] == ua[0] && y[k] == ub[0];
    }
    assert x[k] != y[k];
    if |x| <= |y| {
      assert y[..|x|][k] == y[k];
    }
  }

  lemma FriendlyTextEnd(h: int, m: int, s: int)
    ensures EndsWith(FriendlyText(h, m, s), NumToPluralString(s, "second"))
  {
    var hStr := if h > 0 then NumToPluralString(h, "hour") + ", " else "";
    var mStr := if m > 0 || h > 0 then NumToPluralString(m, "minute") + " and " else "";
    Concat3(hStr, mStr, NumToPluralString(s, "second"));
  }

  lemma FriendlyTextWithHours(h: int, m: int, s: int)
    requires h > 0
    ensures var r := FriendlyText(h, m, s);
      && StartsWith(r, NumToPluralString(h, "hour") + ", ")
      && EndsWith(r, NumToPluralString(m, "minute") + " and " + NumToPluralString(s, "second"))
  {
    var r := FriendlyText(h, m, s);
    var hour := NumToPluralString(h, "hour") + ", ";
    var min := NumToPluralString(m, "minute") + " and ";
    var sec := NumToPluralString(s, "second");
    assert r == hour + min + sec;
    Concat3(hour, min, sec);
  }

  /** Where the three pieces of a concatenation stand. */
  lemma Concat3(a: string, b: string, c: string)
    ensures StartsWith(a + b + c, a) && EndsWith(a + b + c, b + c) && EndsWith(a + b + c, c)
  {
    var r := a + b + c;
    assert r[..|a|] == a;
    assert r[|r| - |b + c|..] == b + c;
    assert r[|r| - |c|..] == c;
  }

  /** A plural text split at its space: the number, then the unit word,
      which gains an `s` exactly when the number is not 1. */
  lemma PluralWord(v: int, unit: string)
    ensures var r := NumToPluralString(v, unit);
      && StartsWith(r, IntToString(v) + " " + unit)
      && (v != 1 <==> |r| == |IntToString(v)| + 1 + |unit| + 1)
      && (v != 1 ==> r[|r| - 1] == 's')
  {
    var n := IntToString(v);
    var r := NumToPluralString(v, unit);
    if v != 1 {
      assert n + " " + unit + "s" == n + " " + (unit + "s");
    }
    assert r[..|n + " " + unit|] == n + " " + unit;
  }

  /** "<a> <ua>..., " is not a prefix of "<b> <ub>..." when the two unit
      words begin with different letters. */
  lemma PluralNotPrefix(a: int, ua: string, b: int, ub: string, tail: string)
    requires |ua| >= 1 && |ub| >= 1 && ua[0] != ub[0]
    ensures !StartsWith(NumToPluralString(b, ub) + tail, NumToPluralString(a, ua) + ", ")
  {
    PluralWord(a, ua);
    PluralWord(b, ub);
    var wa := (if a != 1 then ua + "s" else ua) + ", ";
    var wb := (if b != 1 then ub + "s" else ub) + tail;
    assert wa[0] == ua[0] && wb[0] == ub[0];
    assert NumToPluralString(a, ua) + ", " == IntToString(a) + " " + wa;
    assert NumToPluralString(b, ub) + tail == IntToString(b) + " " + wb;
    IntToStringNoSpace(a);
    IntToStringNoSpace(b);
    DifferentUnit(IntToString(a), wa, IntToString(b), wb);
  }

  lemma FriendlyTextWithMinutes(h: int, m: int, s: int)
    requires h <= 0 && m > 0
    ensures var r := FriendlyText(h, m, s);
      && !StartsWith(r, NumToPluralString(h, "hour") + ", ")
      && EndsWith(r, NumToPluralString(m, "minute") + " and " + NumToPluralString(s, "second"))
  {
    var r := FriendlyText(h, m, s);
    var sec := NumToPluralString(s, "second");
    var min := NumToPluralString(m, "minute");
    assert r == "" + (min + " and ") + sec;
    assert r == min + (" and " + sec);
    PluralNotPrefix(h, "hour", m, "minute", " and " + sec);
    Concat3("", min + " and ", sec);
  }

  lemma FriendlyTextSecondsOnly(h: int, m: int, s: int)
    requires h <= 0 && m <= 0
    ensures var r := FriendlyText(h, m, s);
      && !StartsWith(r, NumToPluralString(h, "hour") + ", ")
      && !EndsWith(r, NumToPluralString(m, "minute") + " and " + NumToPluralString(s, "second"))
  {
    var r := FriendlyText(h, m, s);
    var sec := NumToPluralString(s, "second");
    assert r == "" + "" + sec;
    assert r == sec + "";
    PluralNotPrefix(h, "hour", s, "second", "");
  }

  /** The hour part opens the text exactly when there is a whole hour; the
      minute part stands before the seconds exactly when there is a whole
      hour or minute; the seconds part always closes the text. */
  lemma FriendlyStringLayout(seconds: int)
    ensures var (h, m, s) := Clock(seconds);
      var r := SecondsToFriendlyString(seconds);
      var sec := NumToPluralString(s, "second");
      && EndsWith(r, sec)
      && (h > 0 <==> StartsWith(r, NumToPluralString(h, "hour") + ", "))
      && ((h > 0 || m > 0) <==> EndsWith(r, NumToPluralString(m, "minute") + " and " + sec))
  {
    var (h, m, s) := Clock(seconds);
    FriendlyTextEnd(h, m, s);
    if h > 0 {
      FriendlyTextWithHours(h, m, s);
    } else if m > 0 {
      FriendlyTextWithMinutes(h, m, s);
    } else {
      FriendlyTextSecondsOnly(h, m, s);
    }
  }

  // ---------------------------------------------------------------------
  // base64 and base64url

  /** The "URL and Filename safe" alphabet of RFC 4648 section 5. */
  predicate IsUrlSymbol(c: char)
  {
    'A' <= c <= 'Z' || 'a' <= c <= 'z' || '0' <= c <= '9' || c == '-' || c == '_'
  }

  /** Swap `-` and `_` back to `+` and `/`, then re-pad to a whole quantum. */
  function Base64UrlToBase64(input: string): (r: string)
    ensures '-' !in r && '_' !in r
    ensures |r| % 4 == 0 || |r| % 4 == 1
    ensures |r| == |input| + (if |input| % 4 == 2 then 2 else if |input| % 4 == 3 then 1 else 0)
    ensures r[..|input|] == ReplaceChar(ReplaceChar(input, '_', '/'), '-', '+')
    ensures forall i :: |input| <= i < |r| ==> r[i] == '='
  {
    var result := ReplaceChar(ReplaceChar(input, '_', '/'), '-', '+');
    var rem := |result| % 4;
    if rem == 2 then result + "=="
    else if rem == 3 then result + "="
    else result
  }

  /** Swap `/` and `+` for `_` and `-`, then drop the padding. */
  function Base64ToBase64Url(input: string): (r: string)
    ensures '+' !in r && '/' !in r && '=' !in r
    ensures |r| == |input| - Count(input, '=')
  {
    var result := ReplaceChar(input, '/', '_');
    var result' := ReplaceChar(result, '+', '-');
    CountReplaceChar(input, '/', '_', '=');
    CountReplaceChar(result, '+', '-', '=');
    RemoveChar(result', '=')
  }

  /** The unpadded base64url form of an RFC 4648 section 4 encoding uses only
      the section 5 alphabet. */
  lemma UrlFormAlphabet(s: string)
    requires StdBase64.IsStdBase64(s)
    ensures forall i :: 0 <= i < |Base64ToBase64Url(s)| ==> IsUrlSymbol(Base64ToBase64Url(s)[i])
  {
    var body := UnpaddedBody(s);
    UrlFormOfPadded(s, body);
  }

  /** The data characters of a well-formed padded encoding. */
  function UnpaddedBody(s: string): (body: string)
    requires StdBase64.IsStdBase64(s)
    ensures |body| <= |s| <= |body| + 2
    ensures s == body + Repeat('=', |s| - |body|)
    ensures forall i :: 0 <= i < |body| ==> StdBase64.IsSymbol(body[i])
  {
    var p := if |s| >= 2 && s[|s| - 2] == '=' then 2 else if |s| >= 1 && s[|s| - 1] == '=' then 1 else 0;
    var body := s[..|s| - p];
    assert s == body + Repeat('=', p);
    body
  }

  /** The pointwise part of Base64ToBase64Url. */
  function SwapToUrl(s: string): string
  {
    ReplaceChar(ReplaceChar(s, '/', '_'), '+', '-')
  }

  lemma SwapToUrlAppend(a: string, b: string)
    ensures SwapToUrl(a + b) == SwapToUrl(a) + SwapToUrl(b)
  {
    var x, y := SwapToUrl(a + b), SwapToUrl(a) + SwapToUrl(b);
    assert |x| == |y|;
    forall i | 0 <= i < |x| ensures x[i] == y[i] {
      if i < |a| { assert (a + b)[i] == a[i]; } else { assert (a + b)[i] == b[i - |a|]; }
    }
  }

  lemma UrlFormOfPadded(s: string, body: string)
    requires forall i :: 0 <= i < |body| ==> StdBase64.IsSymbol(body[i])
    requires |body| <= |s| && s == body + Repeat('=', |s| - |body|)
    ensures Base64ToBase64Url(s) == SwapToUrl(body)
    ensures forall i :: 0 <= i < |body| ==> IsUrlSymbol(SwapToUrl(body)[i])
  {
    var pad := Repeat('=', |s| - |body|);
    SwapToUrlAppend(body, pad);
    var t := SwapToUrl(body);
    assert SwapToUrl(pad) == pad;
    assert '=' !in t by {
      forall i | 0 <= i < |t| ensures t[i] != '=' { assert StdBase64.IsSymbol(body[i]); }
    }
    RemoveCharAppend(t, pad, '=');
    RemoveCharAbsent(t, '=');
    RemoveCharRepeat('=', |s| - |body|);
    assert t + [] == t;
  }

  /** Swapping back restores data characters of the standard alphabet. */
  lemma SwapBackRestores(body: string)
    requires forall i :: 0 <= i < |body| ==> StdBase64.IsSymbol(body[i])
    ensures ReplaceChar(ReplaceChar(SwapToUrl(body), '_', '/'), '-', '+') == body
  {
    var back := ReplaceChar(ReplaceChar(SwapToUrl(body), '_', '/'), '-', '+');
    forall i | 0 <= i < |body| ensures back[i] == body[i] {
      assert StdBase64.IsSymbol(body[i]);
    }
  }

  /** Base64UrlToBase64 after SwapToUrl: the data back, padded to a quantum. */
  lemma UnswapAndPad(body: string)
    requires forall i :: 0 <= i < |body| ==> StdBase64.IsSymbol(body[i])
    ensures Base64UrlToBase64(SwapToUrl(body)) ==
      body + (if |body| % 4 == 2 then "==" else if |body| % 4 == 3 then "=" else "")
  {
    var url := SwapToUrl(body);
    var result := ReplaceChar(ReplaceChar(url, '_', '/'), '-', '+');
    SwapBackRestores(body);
    assert result == body;
    assert |url| == |body|;
    if |body| % 4 != 2 && |body| % 4 != 3 {
      assert body + "" == body;
    }
  }

  /** The padding UnswapAndPad adds is the padding that was removed. */
  lemma PaddingRestored(n: nat, p: nat)
    requires p <= 2 && (n + p) % 4 == 0
    ensures (if n % 4 == 2 then "==" else if n % 4 == 3 then "=" else "") == Repeat('=', p)
  {
    if p == 0 {
      assert n % 4 == 0;
    } else if p == 1 {
      assert n % 4 == 3;
    } else {
      assert n % 4 == 2;
    }
  }

  /** Converting an RFC 4648 section 4 encoding to base64url and back gives
      it back unchanged, padding included. */
  lemma Base64RoundTrip(s: string)
    requires StdBase64.IsStdBase64(s)
    ensures Base64UrlToBase64(Base64ToBase64Url(s)) == s
  {
    var body := UnpaddedBody(s);
    var p := |s| - |body|;
    assert |s| % 4 == 0 && p <= 2;
    var pad := if |body| % 4 == 2 then "==" else if |body| % 4 == 3 then "=" else "";
    calc {
      Base64UrlToBase64(Base64ToBase64Url(s));
      { UrlFormOfPadded(s, body); }
      Base64UrlToBase64(SwapToUrl(body));
      { UnswapAndPad(body); }
      body + pad;
      { PaddingRestored(|body|, p); }
      body + Repeat('=', p);
      s;
    }
  }

  // ---------------------------------------------------------------------
  // JWT

  const NotAJwt: string := "<not a JWT>"

  /** The decoded middle part of a three-part compact serialization, or
      "<not a JWT>". `decode` is base64.StdEncoding.DecodeString with the
      decoded bytes read as text; None stands for its error. */
  function JwtToString(jwt: string, decode: string -> Option<string>): (r: string)
    ensures Count(jwt, '.') != 2 ==> r == NotAJwt
  {
    var parts := Split(jwt, '.');
    if |parts| == 3 then
      match decode(Base64UrlToBase64(parts[1]))
      case Some(body) => body
      case None => NotAJwt
    else NotAJwt
  }

  /** For header.payload.signature the decoder receives exactly the re-padded
      payload, and its answer decides the result. */
  lemma {:induction false} JwtPayload(header: string, payload: string, signature: string,
                                      decode: string -> Option<string>)
    requires '.' !in header && '.' !in payload && '.' !in signature
    ensures JwtToString(header + "." + payload + "." + signature, decode) ==
      match decode(Base64UrlToBase64(payload))
      case Some(body) => body
      case None => NotAJwt
  {
    var parts := [header, payload, signature];
    assert parts[1..] == [payload, signature] && parts[1..][1..] == [signature];
    assert Join(parts[1..], '.') == payload + "." + signature;
    assert Join(parts, '.') == header + "." + payload + "." + signature;
    SplitJoin(parts, '.');
  }

  /** A payload produced by encoding and stripping reaches the decoder as the
      original padded encoding. */
  lemma JwtOfEncodedPayload(header: string, data: seq<StdBase64.byte>, signature: string,
                            decode: string -> Option<string>)
    requires '.' !in header && '.' !in signature
    ensures var encoded := StdBase64.Encode(data);
      JwtToString(header + "." + Base64ToBase64Url(encoded) + "." + signature, decode) ==
        match decode(encoded)
        case Some(body) => body
        case None => NotAJwt
  {
    var encoded := StdBase64.Encode(data);
    var payload := Base64ToBase64Url(encoded);
    UrlFormAlphabet(encoded);
    assert '.' !in payload by {
      forall i | 0 <= i < |payload| ensures payload[i] != '.' { assert IsUrlSymbol(payload[i]); }
    }
    JwtPayload(header, payload, signature, decode);
    Base64RoundTrip(encoded);
  }
}
