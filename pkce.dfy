/** PKCE (RFC 7636): the code verifier of section 4.1 and its S256 code
    challenge of section 4.2, as oidc.go generates and derives them. */
module Pkce {
  import opened Text
  import opened Helpers
  import StdBase64

  /** The verifier length the source fixes. */
  const CodeLen: nat := 50

  /** `n` consecutive characters starting at `first`. */
  function CharRange(first: char, n: nat): (r: string)
    requires first as int + n <= 0xD800
    ensures |r| == n
    ensures forall i :: 0 <= i < n ==> r[i] as int == first as int + i
  {
    seq(n, i requires 0 <= i < n => (first as int + i) as char)
  }

  /** The characters a verifier is drawn from, in the source's order:
      upper-case letters, lower-case letters, digits, then `-._~`. */
  const Characters: string := CharRange('A', 26) + CharRange('a', 26) + CharRange('0', 10) + "-._~"

  lemma UpperLetters()
    ensures CharRange('A', 26) == "ABCDEFGHIJKLMNOPQRSTUVWXYZ"
  {
    var lit := "ABCDEFGHIJKLMNOPQRSTUVWXYZ";
    forall i | 0 <= i < 26 ensures lit[i] as int == 'A' as int + i {
    }
  }

  lemma LowerLetters()
    ensures CharRange('a', 26) == "abcdefghijklmnopqrstuvwxyz"
  {
    var lit := "abcdefghijklmnopqrstuvwxyz";
    forall i | 0 <= i < 26 ensures lit[i] as int == 'a' as int + i {
    }
  }

  /** The same set written out as the source spells it. */
  lemma CharactersLiteral()
    ensures Characters == "ABCDEFGHIJKLMNOPQRSTUVWXYZabcdefghijklmnopqrstuvwxyz0123456789-._~"
  {
    UpperLetters();
    LowerLetters();
    assert CharRange('0', 10) == "0123456789";
    assert Characters == "ABCDEFGHIJKLMNOPQRSTUVWXYZ" + "abcdefghijklmnopqrstuvwxyz" + "0123456789" + "-._~";
  }

  /** The `unreserved` production of RFC 7636 section 4.1. */
  predicate IsUnreserved(c: char)
  {
    'A' <= c <= 'Z' || 'a' <= c <= 'z' || '0' <= c <= '9' || c == '-' || c == '.' || c == '_' || c == '~'
  }

  /** Position of an unreserved character in `Characters`. */
  function IndexOf(c: char): (k: nat)
    requires IsUnreserved(c)
    ensures k < 66
  {
    if 'A' <= c <= 'Z' then c as int - 'A' as int
    else if 'a' <= c <= 'z' then 26 + c as int - 'a' as int
    else if '0' <= c <= '9' then 52 + c as int - '0' as int
    else if c == '-' then 62
    else if c == '.' then 63
    else if c == '_' then 64
    else 65
  }

  /** The character set is exactly the unreserved set of RFC 7636, each
      character once: every position holds an unreserved character, and every
      unreserved character sits at exactly one position. */
  lemma CharactersAreUnreserved()
    ensures |Characters| == 66
    ensures forall i :: 0 <= i < |Characters| ==> IsUnreserved(Characters[i]) && IndexOf(Characters[i]) == i
    ensures forall c :: IsUnreserved(c) ==> Characters[IndexOf(c)] == c
  {
    forall i | 0 <= i < |Characters|
      ensures IsUnreserved(Characters[i]) && IndexOf(Characters[i]) == i
    {
      if i < 26 {
        assert Characters[i] as int == 'A' as int + i;
      } else if i < 52 {
        assert Characters[i] as int == 'a' as int + i - 26;
      } else if i < 62 {
        assert Characters[i] as int == '0' as int + i - 52;
      }
    }
    forall c | IsUnreserved(c) ensures Characters[IndexOf(c)] == c {
      var k := IndexOf(c);
      if k < 26 {
        assert Characters[k] as int == 'A' as int + k;
      } else if k < 52 {
        assert Characters[k] as int == 'a' as int + k - 26;
      } else if k < 62 {
        assert Characters[k] as int == '0' as int + k - 52;
      }
    }
  }

  /** SHA-256 output: 32 bytes. */
  type Digest = s: seq<StdBase64.byte> | |s| == 32 witness seq(32, _ => 0)

  /** The verifier built from a sequence of draws of r.Intn(66): one character
      per draw, appended in order. */
  function VerifierFrom(draws: seq<nat>): (v: string)
    requires forall i :: 0 <= i < |draws| ==> draws[i] < |Characters|
    ensures |v| == |draws|
    ensures forall i :: 0 <= i < |draws| ==> v[i] == Characters[draws[i]]
  {
    if draws == [] then ""
    else VerifierFrom(draws[..|draws| - 1]) + [Characters[draws[|draws| - 1]]]
  }

  /** genPkceCodeVerifier: grows the verifier one random character at a time.
      `draws` stands for the values the random source returns. */
  method GenPkceCodeVerifier(draws: seq<nat>) returns (code: string)
    requires |draws| == CodeLen
    requires forall i :: 0 <= i < |draws| ==> draws[i] < |Characters|
    ensures code == VerifierFrom(draws)
    ensures |code| == CodeLen && 43 <= |code| <= 128
    ensures forall i :: 0 <= i < |code| ==> IsUnreserved(code[i])
  {
    CharactersAreUnreserved();
    code := "";
    for i := 0 to CodeLen
      invariant code == VerifierFrom(draws[..i])
    {
      assert draws[..i + 1][..i] == draws[..i];
      code := code + [Characters[draws[i]]];
    }
    assert draws[..CodeLen] == draws;
  }

  /** A 32-byte digest encodes to eleven quanta, the last closed by one `=`. */
  lemma DigestPadding(hash: Digest)
    ensures |StdBase64.Encode(hash)| == 44 && Count(StdBase64.Encode(hash), '=') == 1
  {
    assert StdBase64.PadLength(32) == 1;
  }

  /** The shape of the unpadded base64url text of a 32-byte digest. */
  lemma DigestText(hash: Digest)
    ensures var b64 := StdBase64.Encode(hash);
      && |Base64ToBase64Url(b64)| == 43
      && (forall i :: 0 <= i < 43 ==> IsUrlSymbol(Base64ToBase64Url(b64)[i]))
      && Base64UrlToBase64(Base64ToBase64Url(b64)) == b64
  {
    var b64 := StdBase64.Encode(hash);
    DigestPadding(hash);
    UrlFormAlphabet(b64);
    Base64RoundTrip(b64);
  }

  /** computePkceCodeChallenge: BASE64URL(SHA256(verifier)) without padding.
      `sha256` is SHA-256 applied to the verifier's bytes. */
  function ComputePkceCodeChallenge(verifier: string, sha256: string -> Digest): (challenge: string)
    ensures |challenge| == 43
    ensures forall i :: 0 <= i < |challenge| ==> IsUrlSymbol(challenge[i])
    ensures Base64UrlToBase64(challenge) == StdBase64.Encode(sha256(verifier))
  {
    DigestText(sha256(verifier));
    Base64ToBase64Url(StdBase64.Encode(sha256(verifier)))
  }
}
