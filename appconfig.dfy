/** appconfig.go: where each setting comes from (command line, then
    environment, then a default or a derived value), the ordered validation
    of the result, and the masked copy printed for the user. */
module AppConfig {
  import opened Wrappers
  import opened Text
  import Pkce
  import Tokens

  /** Go's `uint` on a 64-bit platform. */
  type Uint = x: int | 0 <= x < 0x1_0000_0000_0000_0000

  datatype Config = Config(
    authEndpoint: string,
    callbackPath: string,
    clientId: string,
    clientSecret: string,
    codeChallenge: string,
    codeVerifier: string,
    metadataEndpoint: string,
    noBrowser: bool,
    pkce: bool,
    port: Uint,
    refreshToken: string,
    scope: string,
    state: string,
    tokenEndpoint: string,
    userInfoEndpoint: string,
    userInfo: bool,
    verbose: bool)

  // ---------------------------------------------------------------------
  // Validation

  /** The checks of initializeAppConfig, in the order they run. */
  datatype ConfigError =
    | EndpointsMissing
    | InvalidPort
    | InvalidCallbackPath
    | ClientIdMissing
    | UserInfoEndpointMissing
    | EmptyState

  /** Position of a check in the chain. */
  function Rank(e: ConfigError): nat
  {
    match e
    case EndpointsMissing => 0
    case InvalidPort => 1
    case InvalidCallbackPath => 2
    case ClientIdMissing => 3
    case UserInfoEndpointMissing => 4
    case EmptyState => 5
  }

  /** Check `e` rejects `c`, whatever the other checks say. */
  predicate Fails(c: Config, e: ConfigError)
  {
    match e
    case EndpointsMissing => c.authEndpoint == "" || c.tokenEndpoint == ""
    case InvalidPort => c.port == 0 || c.port > 65535
    case InvalidCallbackPath => |c.callbackPath| < 2 || c.callbackPath[0] != '/'
    case ClientIdMissing => c.clientId == ""
    case UserInfoEndpointMissing => c.userInfo && c.userInfoEndpoint == ""
    case EmptyState => c.state == ""
  }

  /** A configuration the client can run with. */
  predicate WellConfigured(c: Config)
  {
    && c.authEndpoint != "" && c.tokenEndpoint != ""
    && 1 <= c.port <= 65535
    && |c.callbackPath| >= 2 && c.callbackPath[0] == '/'
    && c.clientId != ""
    && (c.userInfo ==> c.userInfoEndpoint != "")
    && c.state != ""
  }

  /** The validation chain: the first failing check names the error. */
  function Validate(c: Config): (err: Option<ConfigError>)
    ensures err.None? <==> WellConfigured(c)
    ensures err.Some? ==> Fails(c, err.value)
    ensures err.Some? ==> forall e :: Rank(e) < Rank(err.value) ==> !Fails(c, e)
    ensures err.None? ==> forall e :: !Fails(c, e)
  {
    if c.authEndpoint == "" || c.tokenEndpoint == "" then Some(EndpointsMissing)
    else if c.port == 0 || c.port > 65535 then Some(InvalidPort)
    else if |c.callbackPath| < 2 || c.callbackPath[0] != '/' then Some(InvalidCallbackPath)
    else if c.clientId == "" then Some(ClientIdMissing)
    else if c.userInfo && c.userInfoEndpoint == "" then Some(UserInfoEndpointMissing)
    else if c.state == "" then Some(EmptyState)
    else None
  }

  // ---------------------------------------------------------------------
  // Scope

  /** The scope may be written with `,` or ` ` between scopes; the
      authorization request uses ` `. */
  function NormalizeScope(scope: string): (r: string)
    ensures |r| == |scope| && ',' !in r
    ensures forall i :: 0 <= i < |scope| && scope[i] != ',' ==> r[i] == scope[i]
    ensures forall i :: 0 <= i < |scope| && scope[i] == ',' ==> r[i] == ' '
  {
    ReplaceChar(scope, ',', ' ')
  }

  lemma NormalizeScopeIdempotent(scope: string)
    ensures NormalizeScope(NormalizeScope(scope)) == NormalizeScope(scope)
  {
    var once := NormalizeScope(scope);
    assert ',' !in once;
    var twice := NormalizeScope(once);
    forall i | 0 <= i < |once| ensures twice[i] == once[i] {
      assert once[i] != ',';
    }
  }

  /** Scopes written with `,` between them read as the same scopes with
      ` ` between them. */
  lemma {:induction false} NormalizeScopeList(scopes: seq<string>)
    requires forall k :: 0 <= k < |scopes| ==> ',' !in scopes[k]
    ensures NormalizeScope(Join(scopes, ',')) == Join(scopes, ' ')
  {
    if |scopes| == 1 {
      NormalizeCommaFree(scopes[0]);
    } else if |scopes| > 1 {
      var head, tail := scopes[0], Join(scopes[1..], ',');
      calc {
        NormalizeScope(Join(scopes, ','));
        NormalizeScope(head + [','] + tail);
        { ReplaceCharAppend(head + [','], tail, ',', ' '); }
        NormalizeScope(head + [',']) + NormalizeScope(tail);
        { ReplaceCharAppend(head, [','], ',', ' '); }
        NormalizeScope(head) + NormalizeScope([',']) + NormalizeScope(tail);
        { NormalizeCommaFree(head); NormalizeScopeList(scopes[1..]); }
        head + [' '] + Join(scopes[1..], ' ');
        Join(scopes, ' ');
      }
    }
  }

  lemma NormalizeCommaFree(scope: string)
    requires ',' !in scope
    ensures NormalizeScope(scope) == scope
  {
    var r := NormalizeScope(scope);
    forall i | 0 <= i < |scope| ensures r[i] == scope[i] {
      assert scope[i] != ',';
    }
  }

  lemma ReplaceCharAppend(a: string, b: string, from: char, to: char)
    ensures ReplaceChar(a + b, from, to) == ReplaceChar(a, from, to) + ReplaceChar(b, from, to)
  {
    var ra, rb := ReplaceChar(a, from, to), ReplaceChar(b, from, to);
    var l := ReplaceChar(a + b, from, to);
    assert |l| == |ra + rb|;
    forall i | 0 <= i < |l| ensures l[i] == (ra + rb)[i] {
      if i < |a| {
        assert (a + b)[i] == a[i] && (ra + rb)[i] == ra[i];
      } else {
        assert (a + b)[i] == b[i - |a|] && (ra + rb)[i] == rb[i - |a|];
      }
    }
  }

  // ---------------------------------------------------------------------
  // Environment variables

  /** os.Getenv: the value, or "" when the variable is not set. */
  function Getenv(env: map<string, string>, name: string): string
  {
    if name in env then env[name] else ""
  }

  /** strconv.ParseBool: it accepts exactly the six spellings of true and
      the six of false, and any other string is an error; the value of an
      accepted spelling is told by its first character. */
  function ParseBool(s: string): (r: Option<bool>)
    ensures r == Some(true) <==> s in {"1", "t", "T", "TRUE", "true", "True"}
    ensures r == Some(false) <==> s in {"0", "f", "F", "FALSE", "false", "False"}
    ensures r.Some? ==> 1 <= |s| <= 5
    ensures r.Some? ==> (r.value <==> s[0] == '1' || s[0] == 't' || s[0] == 'T')
  {
    if s == "1" || s == "t" || s == "T" || s == "TRUE" || s == "true" || s == "True" then Some(true)
    else if s == "0" || s == "f" || s == "F" || s == "FALSE" || s == "false" || s == "False" then Some(false)
    else None
  }

  /** strconv.FormatBool. */
  function FormatBool(b: bool): string
  {
    if b then "true" else "false"
  }

  lemma ParseFormatBool(b: bool)
    ensures ParseBool(FormatBool(b)) == Some(b)
    ensures ParseBool("") == None
  {
  }

  predicate AllDigits(s: string)
  {
    forall i :: 0 <= i < |s| ==> IsDigit(s[i])
  }

  /** strconv.ParseUint(s, 10, 64): one or more decimal digits whose value
      fits in 64 bits; no sign, no underscores. */
  function ParseUint(s: string): (r: Option<Uint>)
    ensures r.Some? <==> s != "" && AllDigits(s) && DigitsValue(s) < 0x1_0000_0000_0000_0000
    ensures r.Some? ==> r.value == DigitsValue(s)
  {
    if s != "" && AllDigits(s) && DigitsValue(s) < 0x1_0000_0000_0000_0000 then Some(DigitsValue(s)) else None
  }

  /** Every 64-bit value parses back from its decimal text. */
  lemma ParseUintOfDecimal(n: Uint)
    ensures ParseUint(NatToString(n)) == Some(n)
  {
    DigitsRoundTrip(n);
  }

  /** The value of a string setting after its environment variable is read. */
  function EnvString(defaultValue: string, envVar: string, env: map<string, string>): (r: string)
    ensures envVar !in env || env[envVar] == "" ==> r == defaultValue
    ensures envVar in env && env[envVar] != "" ==> r == env[envVar]
  {
    var v := Getenv(env, envVar);
    if |v| > 0 then v else defaultValue
  }

  /** The value of a boolean setting after its environment variable is read. */
  function EnvBool(defaultValue: bool, envVar: string, env: map<string, string>): (r: bool)
    ensures ParseBool(Getenv(env, envVar)).None? ==> r == defaultValue
    ensures ParseBool(Getenv(env, envVar)).Some? ==> r == ParseBool(Getenv(env, envVar)).value
  {
    var v := Getenv(env, envVar);
    if |v| > 0 && ParseBool(v).Some? then ParseBool(v).value else defaultValue
  }

  /** The value of an unsigned setting after its environment variable is read. */
  function EnvUint(defaultValue: Uint, envVar: string, env: map<string, string>): (r: Uint)
    ensures ParseUint(Getenv(env, envVar)).None? ==> r == defaultValue
    ensures ParseUint(Getenv(env, envVar)).Some? ==> r == DigitsValue(Getenv(env, envVar))
  {
    var v := Getenv(env, envVar);
    if |v| > 0 && ParseUint(v).Some? then ParseUint(v).value else defaultValue
  }

  /** parseStringEnvVar. */
  method ParseStringEnvVar(defaultValue: string, envVar: string, env: map<string, string>) returns (retVal: string)
    ensures retVal == EnvString(defaultValue, envVar, env)
  {
    retVal := defaultValue;
    var envValue := Getenv(env, envVar);
    if |envValue| > 0 {
      retVal := envValue;
    }
  }

  /** parseBoolEnvVar: an unparsable value is reported and ignored. */
  method ParseBoolEnvVar(defaultValue: bool, envVar: string, env: map<string, string>) returns (retVal: bool)
    ensures retVal == EnvBool(defaultValue, envVar, env)
  {
    retVal := defaultValue;
    var envValue := Getenv(env, envVar);
    if |envValue| > 0 {
      var parsed := ParseBool(envValue);
      if parsed.None? {
        retVal := defaultValue;
      } else {
        retVal := parsed.value;
      }
    }
  }

  /** parseUintEnvVar: an unparsable value is reported and ignored. */
  method ParseUintEnvVar(defaultValue: Uint, envVar: string, env: map<string, string>) returns (retVal: Uint)
    ensures retVal == EnvUint(defaultValue, envVar, env)
  {
    retVal := defaultValue;
    var envValue := Getenv(env, envVar);
    if |envValue| > 0 {
      var parsed := ParseUint(envValue);
      if parsed.None? {
        retVal := defaultValue;
      } else {
        retVal := parsed.value;
      }
    }
  }

  // ---------------------------------------------------------------------
  // Random state string

  predicate IsLowerHex(c: char)
  {
    '0' <= c <= '9' || 'a' <= c <= 'f'
  }

  function HexDigit(d: nat): (c: char)
    requires d < 16
    ensures IsLowerHex(c)
  {
    if d < 10 then ('0' as int + d) as char else ('a' as int + d - 10) as char
  }

  function HexDigitValue(c: char): (d: nat)
    requires IsLowerHex(c)
    ensures d < 16 && HexDigit(d) == c
  {
    if c <= '9' then c as int - '0' as int else c as int - 'a' as int + 10
  }

  /** fmt's %04x: four lower-case hex digits, zero-padded. */
  function Hex4(v: nat): (r: string)
    requires v < 0x10000
    ensures |r| == 4 && forall i :: 0 <= i < 4 ==> IsLowerHex(r[i])
  {
    [HexDigit(v / 4096), HexDigit(v / 256 % 16), HexDigit(v / 16 % 16), HexDigit(v % 16)]
  }

  /** Value of four hex digits. */
  function Hex4Value(s: string): nat
    requires |s| == 4 && forall i :: 0 <= i < 4 ==> IsLowerHex(s[i])
  {
    HexDigitValue(s[0]) * 4096 + HexDigitValue(s[1]) * 256 + HexDigitValue(s[2]) * 16 + HexDigitValue(s[3])
  }

  lemma HexDigitInverse(d: nat)
    requires d < 16
    ensures HexDigitValue(HexDigit(d)) == d
  {
  }

  lemma Hex4RoundTrip(v: nat)
    requires v < 0x10000
    ensures Hex4Value(Hex4(v)) == v
  {
    var a, b, c, d := v / 4096, v / 256 % 16, v / 16 % 16, v % 16;
    HexDigitInverse(a);
    HexDigitInverse(b);
    HexDigitInverse(c);
    HexDigitInverse(d);
    HexPlaces(v);
    assert Hex4Value(Hex4(v)) == a * 4096 + b * 256 + c * 16 + d;
  }

  /** The four hex places of a 16-bit value. */
  lemma HexPlaces(v: nat)
    ensures v == v / 4096 * 4096 + v / 256 % 16 * 256 + v / 16 % 16 * 16 + v % 16
  {
    var q1 := v / 16;
    var q2 := q1 / 16;
    var q3 := q2 / 16;
    assert v == 16 * q1 + v % 16;
    assert q1 == 16 * q2 + q1 % 16;
    assert q2 == 16 * q3 + q2 % 16;
    assert v / 256 == q2;
    assert v / 4096 == q3;
  }

  /** Four draws of r.Intn(0x10000). */
  predicate StateDraws(draws: seq<nat>)
  {
    |draws| == 4 && forall k :: 0 <= k < 4 ==> draws[k] < 0x10000
  }

  /** genRandStr: four random values printed as %04x and concatenated. */
  function GenRandStr(draws: seq<nat>): (r: string)
    requires StateDraws(draws)
    ensures |r| == 16
    ensures forall i :: 0 <= i < 16 ==> IsLowerHex(r[i])
    ensures forall k :: 0 <= k < 4 ==> r[4 * k..4 * k + 4] == Hex4(draws[k])
  {
    var a, b, c, d := Hex4(draws[0]), Hex4(draws[1]), Hex4(draws[2]), Hex4(draws[3]);
    var r := a + b + c + d;
    assert r[0..4] == a && r[4..8] == b && r[8..12] == c && r[12..16] == d;
    assert forall i :: 0 <= i < 16 ==> IsLowerHex(r[i]) by {
      forall i | 0 <= i < 16 ensures IsLowerHex(r[i]) {
        if i < 4 { assert r[i] == a[i]; }
        else if i < 8 { assert r[i] == b[i - 4]; }
        else if i < 12 { assert r[i] == c[i - 8]; }
        else { assert r[i] == d[i - 12]; }
      }
    }
    r
  }

  /** Each group of four characters gives back the value drawn for it. */
  lemma GenRandStrDecodes(draws: seq<nat>, k: nat)
    requires StateDraws(draws) && k < 4
    ensures var r := GenRandStr(draws);
      Hex4Value(r[4 * k..4 * k + 4]) == draws[k]
  {
    Hex4RoundTrip(draws[k]);
  }

  // ---------------------------------------------------------------------
  // initializeAppConfig

  /** The values `flag.Parse` found on the command line; None for a flag
      that was not given. */
  datatype Flags = Flags(
    authEndpoint: Option<string>,
    callbackPath: Option<string>,
    clientId: Option<string>,
    clientSecret: Option<string>,
    codeChallenge: Option<string>,
    codeVerifier: Option<string>,
    metadataEndpoint: Option<string>,
    noBrowser: Option<bool>,
    pkce: Option<bool>,
    port: Option<Uint>,
    tokenEndpoint: Option<string>,
    refreshToken: Option<string>,
    state: Option<string>,
    scope: Option<string>,
    verbose: Option<bool>,
    userInfo: Option<bool>,
    userInfoEndpoint: Option<string>)

  /** A flag's value, or its default when not given. */
  function Or<T>(given: Option<T>, default: T): T
  {
    if given.Some? then given.value else default
  }

  /** The secret as printed: one `*` per byte of its UTF-8 encoding, so one
      per character on ASCII text. */
  function MaskSecret(secret: string): (r: string)
    ensures |r| == ByteLength(secret) && forall i :: 0 <= i < |r| ==> r[i] == '*'
    ensures IsAscii(secret) ==> |r| == |secret|
  {
    AsciiLength(secret);
    Repeat('*', ByteLength(secret))
  }

  lemma AsciiLength(s: string)
    ensures IsAscii(s) ==> ByteLength(s) == |s|
  {
    if IsAscii(s) {
      AsciiByteLength(s);
    }
  }

  lemma AsciiCut(token: string)
    ensures IsAscii(token) && |token| >= 15 ==> PrefixWithin(token, 15) == 15
  {
    if IsAscii(token) && |token| >= 15 {
      AsciiPrefixWithin(token, 15);
    }
  }

  /** The refresh token as printed: when its encoding is longer than 15
      bytes, the characters that fit in the first 15 bytes, then `...`; on
      ASCII text, its first 15 characters and `...`. */
  function MaskRefreshToken(token: string): (r: string)
    ensures ByteLength(token) <= 15 ==> r == token
    ensures ByteLength(token) > 15 ==>
      var k := |r| - 3;
      && 0 <= k < |token| && r == token[..k] + "..."
      && ByteLength(token[..k]) <= 15 < ByteLength(token[..k + 1])
    ensures IsAscii(token) && |token| > 15 ==> r == token[..15] + "..."
  {
    if ByteLength(token) > 15 then
      var k := PrefixWithin(token, 15);
      assert token[..|token|] == token;
      AsciiCut(token);
      token[..k] + "..."
    else
      AsciiLength(token);
      token
  }

  /** The setting an environment-backed string flag ends with. */
  function StringSetting(given: Option<string>, envVar: string, default: string, env: map<string, string>): string
  {
    Or(given, EnvString(default, envVar, env))
  }

  /** The flags as `flag.Parse` leaves them: the command-line value, else the
      environment value, else the default. The secret, the verifier and the
      challenge have no environment default at this point. */
  method ReadSettings(cli: Flags, env: map<string, string>) returns (given: Config)
    ensures given.authEndpoint == StringSetting(cli.authEndpoint, "O2TOKEN_AUTH_ENDPOINT", "", env)
    ensures given.callbackPath == StringSetting(cli.callbackPath, "O2TOKEN_CALLBACK_PATH", "/oauth2/callback", env)
    ensures given.clientId == StringSetting(cli.clientId, "O2TOKEN_CLIENT_ID", "", env)
    ensures given.clientSecret == Or(cli.clientSecret, "")
    ensures given.codeChallenge == Or(cli.codeChallenge, "")
    ensures given.codeVerifier == Or(cli.codeVerifier, "")
    ensures given.metadataEndpoint == StringSetting(cli.metadataEndpoint, "O2TOKEN_METADATA_ENDPOINT", "", env)
    ensures given.noBrowser == Or(cli.noBrowser, EnvBool(false, "O2TOKEN_NO_BROWSER", env))
    ensures given.pkce == Or(cli.pkce, EnvBool(true, "O2TOKEN_PKCE", env))
    ensures given.port == Or(cli.port, EnvUint(8080, "O2TOKEN_PORT", env))
    ensures given.tokenEndpoint == StringSetting(cli.tokenEndpoint, "O2TOKEN_TOKEN_ENDPOINT", "", env)
    ensures given.refreshToken == StringSetting(cli.refreshToken, "O2TOKEN_REFRESH_TOKEN", "", env)
    ensures given.state == StringSetting(cli.state, "O2TOKEN_STATE", "", env)
    ensures given.scope == StringSetting(cli.scope, "O2TOKEN_SCOPE", "openid,offline_access", env)
    ensures given.verbose == Or(cli.verbose, EnvBool(false, "O2TOKEN_VERBOSE", env))
    ensures given.userInfo == Or(cli.userInfo, EnvBool(false, "O2TOKEN_USERINFO", env))
    ensures given.userInfoEndpoint == StringSetting(cli.userInfoEndpoint, "O2TOKEN_USERINFO_ENDPOINT", "", env)
  {
    var authEndpoint := ParseStringEnvVar("", "O2TOKEN_AUTH_ENDPOINT", env);
    var callbackPath := ParseStringEnvVar("/oauth2/callback", "O2TOKEN_CALLBACK_PATH", env);
    var clientId := ParseStringEnvVar("", "O2TOKEN_CLIENT_ID", env);
    var metadataEndpoint := ParseStringEnvVar("", "O2TOKEN_METADATA_ENDPOINT", env);
    var noBrowser := ParseBoolEnvVar(false, "O2TOKEN_NO_BROWSER", env);
    var pkce := ParseBoolEnvVar(true, "O2TOKEN_PKCE", env);
    var port := ParseUintEnvVar(8080, "O2TOKEN_PORT", env);
    var tokenEndpoint := ParseStringEnvVar("", "O2TOKEN_TOKEN_ENDPOINT", env);
    var refreshToken := ParseStringEnvVar("", "O2TOKEN_REFRESH_TOKEN", env);
    var state := ParseStringEnvVar("", "O2TOKEN_STATE", env);
    var scope := ParseStringEnvVar("openid,offline_access", "O2TOKEN_SCOPE", env);
    var verbose := ParseBoolEnvVar(false, "O2TOKEN_VERBOSE", env);
    var userInfo := ParseBoolEnvVar(false, "O2TOKEN_USERINFO", env);
    var userInfoEndpoint := ParseStringEnvVar("", "O2TOKEN_USERINFO_ENDPOINT", env);
    given := Config(
      Or(cli.authEndpoint, authEndpoint), Or(cli.callbackPath, callbackPath), Or(cli.clientId, clientId),
      Or(cli.clientSecret, ""), Or(cli.codeChallenge, ""), Or(cli.codeVerifier, ""),
      Or(cli.metadataEndpoint, metadataEndpoint), Or(cli.noBrowser, noBrowser), Or(cli.pkce, pkce),
      Or(cli.port, port), Or(cli.refreshToken, refreshToken), Or(cli.scope, scope), Or(cli.state, state),
      Or(cli.tokenEndpoint, tokenEndpoint), Or(cli.userInfoEndpoint, userInfoEndpoint),
      Or(cli.userInfo, userInfo), Or(cli.verbose, verbose));
  }

  /** The secret, state and PKCE defaults: each is filled in only when empty. */
  method SpecialDefaults(
    given: Config, env: map<string, string>,
    stateDraws: seq<nat>, verifierDraws: seq<nat>, sha256: string -> Pkce.Digest)
    returns (config: Config)
    requires StateDraws(stateDraws)
    requires |verifierDraws| == Pkce.CodeLen
    requires forall i :: 0 <= i < |verifierDraws| ==> verifierDraws[i] < |Pkce.Characters|
    ensures config == given.(clientSecret := config.clientSecret, state := config.state,
                             codeVerifier := config.codeVerifier, codeChallenge := config.codeChallenge)
    ensures given.clientSecret != "" ==> config.clientSecret == given.clientSecret
    ensures given.clientSecret == "" ==> config.clientSecret == Getenv(env, "O2TOKEN_CLIENT_SECRET")
    ensures given.state != "" ==> config.state == given.state
    ensures given.state == "" ==> config.state == GenRandStr(stateDraws)
    ensures config.state != ""
    ensures !given.pkce ==> config.codeVerifier == given.codeVerifier && config.codeChallenge == given.codeChallenge
    ensures given.pkce && given.codeVerifier != "" ==> config.codeVerifier == given.codeVerifier
    ensures given.pkce && given.codeVerifier == "" ==> config.codeVerifier == Pkce.VerifierFrom(verifierDraws)
    ensures given.pkce && given.codeChallenge != "" ==> config.codeChallenge == given.codeChallenge
    ensures given.pkce && given.codeChallenge == "" ==>
      config.codeChallenge == Pkce.ComputePkceCodeChallenge(config.codeVerifier, sha256)
  {
    var clientSecret := given.clientSecret;
    if clientSecret == "" {
      clientSecret := ParseStringEnvVar("", "O2TOKEN_CLIENT_SECRET", env);
    }
    var state := given.state;
    if state == "" {
      state := GenRandStr(stateDraws);
    }
    var codeVerifier, codeChallenge := given.codeVerifier, given.codeChallenge;
    if given.pkce {
      if codeVerifier == "" {
        codeVerifier := Pkce.GenPkceCodeVerifier(verifierDraws);
      }
      if codeChallenge == "" {
        codeChallenge := Pkce.ComputePkceCodeChallenge(codeVerifier, sha256);
      }
    }
    config := given.(clientSecret := clientSecret, state := state,
                     codeVerifier := codeVerifier, codeChallenge := codeChallenge);
  }

  /** Endpoints from the provider's metadata document, used only where the
      configured endpoint is empty. `fetchMetadata` stands for
      fetchMetadataDocument, which yields the empty record on any failure. */
  method MetadataDefaults(given: Config, fetchMetadata: string -> Tokens.OidcMetadata) returns (config: Config)
    ensures config == given.(authEndpoint := config.authEndpoint, tokenEndpoint := config.tokenEndpoint,
                             userInfoEndpoint := config.userInfoEndpoint)
    ensures given.metadataEndpoint == "" ==> config == given
    ensures given.authEndpoint != "" ==> config.authEndpoint == given.authEndpoint
    ensures given.tokenEndpoint != "" ==> config.tokenEndpoint == given.tokenEndpoint
    ensures given.userInfoEndpoint != "" ==> config.userInfoEndpoint == given.userInfoEndpoint
    ensures given.metadataEndpoint != "" && given.authEndpoint == "" ==>
      config.authEndpoint == fetchMetadata(given.metadataEndpoint).authEndpoint
    ensures given.metadataEndpoint != "" && given.tokenEndpoint == "" ==>
      config.tokenEndpoint == fetchMetadata(given.metadataEndpoint).tokenEndpoint
    ensures given.metadataEndpoint != "" && given.userInfoEndpoint == "" ==>
      config.userInfoEndpoint == fetchMetadata(given.metadataEndpoint).userInfoEndpoint
  {
    config := given;
    if |given.metadataEndpoint| > 0 {
      var idpMeta := fetchMetadata(given.metadataEndpoint);
      if |config.authEndpoint| == 0 {
        config := config.(authEndpoint := idpMeta.authEndpoint);
      }
      if |config.tokenEndpoint| == 0 {
        config := config.(tokenEndpoint := idpMeta.tokenEndpoint);
      }
      if |config.userInfoEndpoint| == 0 {
        config := config.(userInfoEndpoint := idpMeta.userInfoEndpoint);
      }
    }
  }

  /** The configuration as initializeAppConfig prints it: the secret and
      most of the refresh token hidden, every other field as it is. Go
      masks the fields in place and restores them after printing; here the
      configuration is a value, so only the printed copy is masked. */
  method MaskedCopy(config: Config) returns (displayed: Config)
    ensures displayed == config.(clientSecret := MaskSecret(config.clientSecret),
                                 refreshToken := MaskRefreshToken(config.refreshToken))
  {
    var tempSecret := config.clientSecret;
    displayed := config.(clientSecret := Repeat('*', ByteLength(tempSecret)));
    if ByteLength(displayed.refreshToken) > 15 {
      var token := displayed.refreshToken;
      displayed := displayed.(refreshToken := token[..PrefixWithin(token, 15)] + "...");
    }
  }

  /** What initializeAppConfig makes of its inputs, field by field: each
      plain setting is the flag, else the environment variable, else the
      default; the secret, state, verifier and challenge get their special
      defaults; an endpoint left empty comes from the metadata document when
      there is one. */
  ghost predicate Initialized(
    cli: Flags, env: map<string, string>,
    stateDraws: seq<nat>, verifierDraws: seq<nat>,
    sha256: string -> Pkce.Digest,
    fetchMetadata: string -> Tokens.OidcMetadata, config: Config)
    requires StateDraws(stateDraws)
    requires forall i :: 0 <= i < |verifierDraws| ==> verifierDraws[i] < |Pkce.Characters|
  {
    // the plain settings: command line, else environment, else default
    && config.callbackPath == StringSetting(cli.callbackPath, "O2TOKEN_CALLBACK_PATH", "/oauth2/callback", env)
    && config.clientId == StringSetting(cli.clientId, "O2TOKEN_CLIENT_ID", "", env)
    && config.metadataEndpoint == StringSetting(cli.metadataEndpoint, "O2TOKEN_METADATA_ENDPOINT", "", env)
    && config.noBrowser == Or(cli.noBrowser, EnvBool(false, "O2TOKEN_NO_BROWSER", env))
    && config.port == Or(cli.port, EnvUint(8080, "O2TOKEN_PORT", env))
    && config.pkce == Or(cli.pkce, EnvBool(true, "O2TOKEN_PKCE", env))
    && config.refreshToken == StringSetting(cli.refreshToken, "O2TOKEN_REFRESH_TOKEN", "", env)
    && config.verbose == Or(cli.verbose, EnvBool(false, "O2TOKEN_VERBOSE", env))
    && config.userInfo == Or(cli.userInfo, EnvBool(false, "O2TOKEN_USERINFO", env))
    && config.scope == NormalizeScope(StringSetting(cli.scope, "O2TOKEN_SCOPE", "openid,offline_access", env))
    // the special defaults
    && (Or(cli.clientSecret, "") != "" ==> config.clientSecret == cli.clientSecret.value)
    && (Or(cli.clientSecret, "") == "" ==> config.clientSecret == Getenv(env, "O2TOKEN_CLIENT_SECRET"))
    && (var state := StringSetting(cli.state, "O2TOKEN_STATE", "", env);
         config.state == if state != "" then state else GenRandStr(stateDraws))
    && (!config.pkce || Or(cli.codeVerifier, "") != "" ==> config.codeVerifier == Or(cli.codeVerifier, ""))
    && (config.pkce && Or(cli.codeVerifier, "") == "" ==> config.codeVerifier == Pkce.VerifierFrom(verifierDraws))
    && (!config.pkce || Or(cli.codeChallenge, "") != "" ==> config.codeChallenge == Or(cli.codeChallenge, ""))
    && (config.pkce && Or(cli.codeChallenge, "") == "" ==>
         config.codeChallenge == Pkce.ComputePkceCodeChallenge(config.codeVerifier, sha256))
    // the endpoints: as configured, else from the metadata document when
    // there is one, else empty
    && (var auth := StringSetting(cli.authEndpoint, "O2TOKEN_AUTH_ENDPOINT", "", env);
         config.authEndpoint ==
         if auth != "" || config.metadataEndpoint == "" then auth
         else fetchMetadata(config.metadataEndpoint).authEndpoint)
    && (var token := StringSetting(cli.tokenEndpoint, "O2TOKEN_TOKEN_ENDPOINT", "", env);
         config.tokenEndpoint ==
         if token != "" || config.metadataEndpoint == "" then token
         else fetchMetadata(config.metadataEndpoint).tokenEndpoint)
    && (var userInfo := StringSetting(cli.userInfoEndpoint, "O2TOKEN_USERINFO_ENDPOINT", "", env);
         config.userInfoEndpoint ==
         if userInfo != "" || config.metadataEndpoint == "" then userInfo
         else fetchMetadata(config.metadataEndpoint).userInfoEndpoint)
  }

  /** initializeAppConfig: read the settings, fill in the special and the
      metadata defaults, normalise the scope, validate, and print a masked
      copy when verbose or invalid. `verifierDraws` and `stateDraws` are what
      the random sources return and `sha256` hashes the verifier. Returns the
      configuration, the first validation error, and the printed copy. */
  method InitializeAppConfig(
    cli: Flags, env: map<string, string>,
    stateDraws: seq<nat>, verifierDraws: seq<nat>,
    sha256: string -> Pkce.Digest,
    fetchMetadata: string -> Tokens.OidcMetadata)
    returns (config: Config, err: Option<ConfigError>, displayed: Option<Config>)
    requires StateDraws(stateDraws)
    requires |verifierDraws| == Pkce.CodeLen
    requires forall i :: 0 <= i < |verifierDraws| ==> verifierDraws[i] < |Pkce.Characters|
    ensures Initialized(cli, env, stateDraws, verifierDraws, sha256, fetchMetadata, config)
    // validation and the masked copy
    ensures err == Validate(config)
    ensures displayed.Some? <==> config.verbose || err.Some?
    ensures displayed.Some? ==> displayed.value == config.(clientSecret := MaskSecret(config.clientSecret),
                                                          refreshToken := MaskRefreshToken(config.refreshToken))
  {
    var given := ReadSettings(cli, env);
    config := SpecialDefaults(given, env, stateDraws, verifierDraws, sha256);
    config := MetadataDefaults(config, fetchMetadata);
    config := config.(scope := NormalizeScope(config.scope));

    err := Validate(config);

    displayed := None;
    if config.verbose || err.Some? {
      var masked := MaskedCopy(config);
      displayed := Some(masked);
    }
  }
}
