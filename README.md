# o2token in Dafny

o2token is a command-line OAuth2 client for debugging an identity provider
(IDP). It reads its configuration from flags and `O2TOKEN_*` environment
variables, fills in defaults, and validates the result. Then it does one of
three things:

- runs the client-credentials flow;
- redeems a refresh token;
- runs the authorization-code flow. A small local HTTP server sends the
  browser to the IDP's authorization endpoint (`/login`), receives the
  callback with the code, checks `state`, and redeems the code at the token
  endpoint. PKCE is optional. It then fetches userinfo if asked, prints the
  tokens, and asks the process to exit.

The exit code a handler requests is clamped to `[0, 125]`. Static files are
served with caching disabled.

This project models that core:

| module | models |
|---|---|
| `AppConfig` | `initializeAppConfig`: reading flags and the environment, the special defaults (secret, random state, PKCE verifier and challenge), endpoints from IDP metadata, the scope separator, the validation chain, and masking for display. Also `parse*EnvVar` and `genRandStr`. |
| `Pkce` | `genPkceCodeVerifier` and `computePkceCodeChallenge` (RFC 7636 sections 4.1 and 4.2). |
| `Oidc` | `startFlow`, `oauth2CodeCallback` and `refreshTokens`. Also the form of the code grant and the refresh grant (`redeemTokensWithCode`, `redeemTokensWithRefreshToken`), and `redeemTokens`' decision on what the token endpoint returned. |
| `Server` | `noCache` and `reportErrorAndSoftExit`. |
| `ServerFlow` | The route table of `serveAuthCodeFlow`, and the server as a loop over incoming requests and SIGINT. |
| `ExitState` | The process's exit state: `softExit`, the exit code, the stop request, and a trace of what the process did. |
| `O2Token` | `main`: exit 1 on a configuration error, then the dispatch priority between the three flows. |
| `Helpers` | `helpers/helpers.go`: `SecondsToFriendlyString`, `NumToPluralString`, `JwtToString`, `Base64UrlToBase64` and `Base64ToBase64Url`. |
| `Http` | The parts of Go's `net/http` the handlers use: a parsed form, a request whose header can be edited, and a response writer whose first status wins. |
| `QueryEscaping`, `StdBase64`, `Text` | `url.QueryEscape`, the padded base64 encoder of RFC 4648 section 4, and string helpers (`strings.ReplaceAll`, `strings.Split`, decimal formatting). |

The outside world enters the model as parameters:

- CLI flags and the environment: `Flags`, and the environment as a map.
- The random draws: sequences of numbers, each within the source's bound.
- SHA-256: a function to a 32-byte digest.
- The metadata fetch: a function from URL to `OidcMetadata`.
- The token endpoint: a function from URL and form to an `Exchange`, meaning no request, no response, or a body with its JSON decoding.
- Userinfo: a function to an optional document.
- Printing: a predicate that says whether the tokens can be marshalled.
- The success page: a string.
- The Unix epoch in RFC 1123 form: a string.

What the process does is recorded as `ExitState.Event`s:

- the server starting with its patterns;
- requests to the token and userinfo endpoints;
- the success page served to the browser;
- printed tokens;
- served static files;
- exit requests;
- the server's shutdown.

## Model

| member | source | states |
|---|---|---|
| AppConfig.Validate | appconfig.go:120-134 | The error is absent exactly when every check passes. When present, it names a failing check, and every check earlier in the chain passes (endpoints, then port 1..65535, then a callback path of at least two characters starting with `/`, then client id, userinfo endpoint and state). |
| AppConfig.NormalizeScope | appconfig.go:97-98 | Same length, no `,` left, every `,` becomes a space, every other character is kept. |
| AppConfig.NormalizeScopeIdempotent | appconfig.go:98 | Normalizing twice is normalizing once. |
| AppConfig.NormalizeScopeList | appconfig.go:97-98 | Comma-free scopes joined by `,` normalize to the same scopes joined by spaces. |
| AppConfig.ParseBool | appconfig.go:158 | strconv.ParseBool: true exactly for `1`, `t`, `T`, `TRUE`, `true` and `True`; false exactly for `0`, `f`, `F`, `FALSE`, `false` and `False`; any other text is an error. An accepted spelling has 1 to 5 characters, and its first character tells its value. |
| AppConfig.ParseFormatBool | appconfig.go:158 | Parsing the canonical spelling of a boolean gives it back; the empty string does not parse. |
| AppConfig.ParseUint | appconfig.go:181 | A value comes back exactly when the text is non-empty, all decimal digits, and below 2^64; it is then the decimal value of the text. |
| AppConfig.ParseUintOfDecimal | appconfig.go:181 | Every decimal rendering of a natural number parses back to it. |
| AppConfig.EnvString | appconfig.go:167-174 | Unset or empty gives the default; otherwise the variable's value. |
| AppConfig.EnvBool | appconfig.go:153-165 | A value ParseBool rejects gives the default; otherwise the parsed value. |
| AppConfig.EnvUint | appconfig.go:176-188 | A value ParseUint rejects gives the default; otherwise the decimal value. |
| AppConfig.ParseStringEnvVar | appconfig.go:167-174 | The imperative reader returns EnvString. |
| AppConfig.ParseBoolEnvVar | appconfig.go:153-165 | The imperative reader returns EnvBool. |
| AppConfig.ParseUintEnvVar | appconfig.go:176-188 | The imperative reader returns EnvUint. |
| AppConfig.Hex4 | appconfig.go:195 | `%04x` gives four lower-case hex digits. |
| AppConfig.Hex4RoundTrip | appconfig.go:194-195 | Reading the four digits back gives the 16-bit value. |
| AppConfig.GenRandStr | appconfig.go:190-198 | 16 lower-case hex characters; group k is `%04x` of draw k. |
| AppConfig.GenRandStrDecodes | appconfig.go:190-198 | Each 4-character group decodes to its random draw, so the state carries 64 random bits. |
| AppConfig.MaskSecret | appconfig.go:140 | One `*` per byte of the secret's UTF-8 encoding (Go's `len`), so one per character on ASCII text. |
| AppConfig.MaskRefreshToken | appconfig.go:141-143 | Tokens of up to 15 bytes are shown whole. Longer ones show the longest prefix that fits in 15 bytes, followed by `...`. On ASCII text that prefix is the first 15 characters. |
| AppConfig.MaskedCopy | appconfig.go:136-148 | The printed copy differs from the configuration only in the masked secret and refresh token. |
| AppConfig.ReadSettings | appconfig.go:39-57 | Each setting is its flag if given, else its environment variable, else its default. The client secret, verifier and challenge do not read the environment at this point. |
| AppConfig.SpecialDefaults | appconfig.go:59-77 | Only the secret, state, verifier and challenge change, and each only when empty. An empty secret comes from `O2TOKEN_CLIENT_SECRET` and an empty state from genRandStr, so the state is never empty. With PKCE on, an empty verifier is generated and an empty challenge derived from the final verifier. With PKCE off, both stay as given. |
| AppConfig.MetadataDefaults | appconfig.go:79-95 | Only the three endpoints change. Nothing changes without a metadata endpoint. A non-empty endpoint is kept, and an empty one takes the metadata's value. |
| AppConfig.InitializeAppConfig | appconfig.go:34-151 | The returned config satisfies Initialized, which states every field. Plain settings come from the flag, else the environment, else the default, and the scope is normalized. The secret, state, verifier and challenge get their special defaults; a given state, verifier or challenge is kept, and so are both PKCE values when PKCE is off. Each endpoint is as configured; when empty and a metadata endpoint is set, it comes from the metadata document; otherwise it stays empty. The error is Validate of the returned config. A masked copy is displayed exactly when verbose or invalid, and the returned config keeps the unmasked secret and refresh token. |
| Pkce.CharactersLiteral | oidc.go:282 | The verifier alphabet is the source's 66-character string. |
| Pkce.CharactersAreUnreserved | oidc.go:282 | Each of the 66 characters is an RFC 7636 `unreserved` character, and each unreserved character appears exactly once. |
| Pkce.VerifierFrom | oidc.go:286-292 | One character per draw, in order: character i is the alphabet at draw i. |
| Pkce.GenPkceCodeVerifier | oidc.go:280-294 | The loop builds VerifierFrom(draws): 50 unreserved characters, within the 43..128 bounds of RFC 7636 section 4.1. |
| Pkce.DigestText | oidc.go:298-302 | The unpadded base64url text of a 32-byte digest has 43 characters from the base64url alphabet, and re-padding restores the standard encoding. |
| Pkce.ComputePkceCodeChallenge | oidc.go:298-302 | The challenge has 43 base64url characters, and re-padding it gives the standard base64 of SHA-256 of the verifier (RFC 7636 section 4.2, S256). |
| Oidc.RedirectUri | oidc.go:74 | `http://localhost:`, then the port in decimal (NatToString, which DigitsRoundTrip reads back), then the callback path. |
| Oidc.AuthQueryParams | oidc.go:76-79 | Five parameters, plus the two PKCE ones when PKCE is on. |
| Oidc.AuthorizationUrl | oidc.go:76-79 | The URL starts with the endpoint, `?client_id=<id>&redirect_uri=`. |
| Oidc.AuthorizationUrlIsJoin | oidc.go:76-79 | The URL is the endpoint, `?`, and the parameters joined by `&`. |
| Oidc.PkceAppendsChallenge | oidc.go:77-79 | With PKCE, the URL is the PKCE-less URL followed by `&code_challenge=<challenge>&code_challenge_method=S256`. Without PKCE, it is the PKCE-less URL. |
| Oidc.AuthQuerySplits | oidc.go:75-79 | When id, callback path, state and challenge hold no `&`, splitting the query on `&` gives back exactly the parameters, the escaped scope included. |
| Oidc.CodeGrantParams | oidc.go:189-201 | The code grant's form: exactly grant_type=authorization_code, redirect_uri, client_id, client_secret and code, plus code_verifier exactly when PKCE is on. |
| Oidc.RefreshGrantParams | oidc.go:203-211 | The refresh grant's form: exactly grant_type=refresh_token, client_id, client_secret and refresh_token. |
| Oidc.RedirectUriShared | oidc.go:189-201 | The code grant repeats the authorization request's redirect URI. |
| Oidc.RedeemTokens | oidc.go:213-245 | Success exactly when a body came back, decoded, and holds a non-empty access token; then the decoded tokens are returned. Every failure returns the zero response with its own error: the build or send cause, the decoding error together with the raw body, or the raw body when the access token is empty. |
| Oidc.WithUserInfo | oidc.go:118-124 | Only the userinfo field can change, and only when userinfo is enabled. |
| Oidc.AfterRedeem | oidc.go:118-130 | After redemption only userinfo requests and prints happen, each at most once. The userinfo request, with the configured endpoint and the redeemed access token, comes first exactly when enabled. The tokens printed last are the redeemed tokens with the userinfo attached when enabled, and they are printed exactly when they can be marshalled. |
| Oidc.AfterCodeRedeem | oidc.go:118-137 | The callback's steps after redemption are AfterRedeem's, with the success page served between the userinfo request and the printing. |
| Oidc.CallbackEvents | oidc.go:86-138 | Every callback ends with exactly one exit request, as its last event. A token request comes first exactly when the checks pass. The code is 125 exactly when the request is rejected or the code cannot be redeemed. The success page is served exactly when the code is not 125. |
| Oidc.StartFlow | oidc.go:72-84 | `Location` is the authorization URL, the status is 302 unless one was already written, and the body is unchanged. |
| Oidc.CheckCallback | oidc.go:91-109 | Accepted exactly when the form parses, has a code, and its state matches. MissingCode exactly when it parses without a code. A state mismatch carries the received state. ParseFailed exactly when the form is malformed. |
| Oidc.OAuth2CodeCallback | oidc.go:86-138 | A rejected callback gets 400, makes no token request and exits with 125. An accepted one continues as RedeemCode describes. The events are CallbackEvents of the form. The configuration is untouched. |
| Oidc.RedeemCode | oidc.go:111-137 | After the token request, a failed redemption gets 500 and exits with 125. Otherwise, in this order: the userinfo request when enabled, the success page with 200, the printed tokens, and exit 0 (1 when printing fails). |
| Oidc.RefreshTokens | oidc.go:140-161 | A token request with the refresh grant. On failure, the wrapped error with nothing after the request. On success, userinfo and printing, and no error exactly when printing works. Never requests exit. |
| Server.NoCacheHeaders | server.go:55-60 | Exactly the four no-cache headers. |
| Server.WithoutEtags | server.go:62-77 | Every ETag/If-* header reads as empty afterwards through the canonicalising Header.Get, including the canonical `Etag` for the listed `ETag`. A header whose key is not the canonical form of a listed name is kept. Nothing is added or changed: only removals happen. |
| Server.EtagKeyIsCanonical | server.go:63 | The listed `ETag` is looked up under its canonical key `Etag`. That key is among the canonical keys of the list, and the literal `ETag` is not. |
| Server.CanonicalEtagRemoved | server.go:73-76 | A request that arrives with a non-empty `Etag` header loses it. |
| Server.StripEtags | server.go:72-77 | For each listed name, when Header.Get finds a non-empty value, Header.Del removes the canonical key. The loop leaves the request header equal to WithoutEtags of the old one. |
| Server.SetAllNoCache | server.go:79-82 | Setting the pairs one by one gives the map override by NoCacheHeaders for every order that visits each no-cache entry exactly once. |
| Server.SetAllOfDistinct | server.go:79-82 | With distinct names, setting pairs one by one on an empty header gives exactly the pairs, whatever their order. |
| Server.SetNoCacheHeaders | server.go:79-82 | The loop leaves the response header as the old one overridden by the no-cache headers; status and body are untouched. |
| Server.NoCache | server.go:53-88 | The request header becomes WithoutEtags of the old one, so a non-empty `Etag` request header is gone (CanonicalEtagRemoved), and the response gains the no-cache headers. Then the wrapped handler runs once and sees both edits. Exit state is untouched. |
| Server.ErrorMessage | server.go:91 | `ERROR: `, then the summary, then `: `, then the cause, each at a fixed position, so both parts can be read back. |
| Server.ReportErrorAndSoftExit | server.go:90-99 | With a writer: status `code` (if none yet) and the message appended. Always: exit requested with ClampExitCode(code). Without a writer, any code is accepted. |
| ServerFlow.Patterns | server.go:15-17 | Exactly three patterns: `/`, the callback path, `/login`. |
| ServerFlow.Route | server.go:13-17 | `/login` goes to startFlow. A path the callback pattern matches goes to the callback. Everything else goes to the no-cache static files. |
| ServerFlow.Dispatch | server.go:13-17 | A request is handled by the handler its path routes to, and the promise speaks of the headers it arrived with. `/login` adds no event and redirects: `Location` is the authorization URL, the status 302 unless one was written, the body untouched. A static path records one StaticServed event: the request header is WithoutEtags of the arrival header, and the response header is the arrival header plus the no-cache headers. The callback path adds CallbackEvents and requests exit. Only the callback changes the exit code or stops the server. |
| ServerFlow.HandleUntilStopped | server.go:15-43 | Items are handled in order, each with the request and response headers it arrived with. The loop stops at the first SIGINT or callback request and at no other item, and the record grows by what each handled item adds. |
| ServerFlow.Serve | server.go:12-50 | The record is ServerStarted, then what each consumed item added, in order, then ServerShutdown when stopped. Each consumed request is handled as Dispatch promises for the headers it arrived with. The server stops exactly at the first SIGINT or callback request. Without either, it consumes everything. The exit code changes only through a callback. |
| ExitState.ClampExitCode | o2token.go:46-52 | Always in [0,125]; equal to the input exactly when the input is in [0,125]; otherwise 125. |
| ExitState.Process.SoftExit | o2token.go:43-54 | Records the clamped code before requesting exit, always requests it, and returns. The recorded code is the last one requested. |
| ExitState.Process.Record | server.go:84 | Modelling helper behind every recorded step: the token and userinfo requests, the success page, the printed tokens, the static file served here, and the server start and shutdown. It appends an event that is not an exit request, and the last requested code does not change. |
| O2Token.ExitWithoutServer | o2token.go:24-35 | In the client-credentials and refresh flows the process ends with 0 or 1, the server never starts, and no exit is requested. |
| O2Token.RefreshExitCode | o2token.go:30-35 | A refresh run ends with 0 exactly when its last act was printing the tokens. |
| O2Token.Dispatch | o2token.go:11-39 | Client credentials first, then refresh, then the server. A failing flow exits with 1; otherwise the deferred exit uses the recorded code. A duplicate `/login` registration exits with 0. When the server runs, the trace is the server start, what each consumed item added, and the shutdown when stopped. Each consumed item is handled as Dispatch promises for the headers it arrived with. The server stops exactly at the first SIGINT or callback request, and then the exit code is the last requested one. |
| O2Token.RunServer | o2token.go:36-38 | The server branch: Served, with each consumed request handled for the headers it arrived with, and an exit code in [0,125] when stopped. |
| O2Token.Run | o2token.go:11-39 | The config is the one initializeAppConfig builds from the flags, the environment, the random draws and the metadata document (Initialized). When it is invalid the run exits with 1 and runs no flow. Otherwise Dispatch's promise holds for the incoming requests, the epoch and the headers each request arrived with. |
| Helpers.ClockDecomposes | helpers/helpers.go:18-20 | h·3600 + m·60 + s is the input, with minutes and seconds in (-60, 60) taking the input's sign, and in [0, 60) for non-negative input (Go's truncating division). |
| Helpers.PluralWord | helpers/helpers.go:33-39 | The text starts with `"<v> <unit>"` and is one character longer, ending in `s`, exactly when v ≠ 1. |
| Helpers.FriendlyStringLayout | helpers/helpers.go:17-31 | The hour part opens the text exactly when h > 0. The minute part precedes the seconds exactly when h > 0 or m > 0. The seconds part always ends the text. |
| Helpers.Base64UrlToBase64 | helpers/helpers.go:55-66 | No `-` or `_`. Two `=` are added when the length mod 4 is 2 and one when it is 3, so the result's length mod 4 is 0 or 1. The input part is swapped back pointwise. |
| Helpers.Base64ToBase64Url | helpers/helpers.go:68-73 | No `+`, `/` or `=`; the length drops by the number of `=`. |
| Helpers.UrlFormAlphabet | helpers/helpers.go:68-73 | The base64url form of a padded encoding uses only the RFC 4648 section 5 alphabet. |
| Helpers.Base64RoundTrip | helpers/helpers.go:55-73 | Converting a well-formed RFC 4648 section 4 string to base64url and back gives it back. |
| Helpers.JwtToString | helpers/helpers.go:42-53 | Not exactly two `.` gives `<not a JWT>`. |
| Helpers.JwtPayload | helpers/helpers.go:42-53 | For header.payload.signature, the decoder gets the re-padded payload, and its answer (or `<not a JWT>` on error) is the result. |
| Helpers.JwtOfEncodedPayload | helpers/helpers.go:42-53 | A payload made by base64url-stripping a standard encoding reaches the decoder as that encoding. |
| QueryEscaping.QueryEscape | oidc.go:75 | Only unreserved characters, `%` and `+` appear; the output is between 1 and 12 times the input length. |
| QueryEscaping.EscapedHasNoDelimiters | oidc.go:75-76 | The escaped scope holds no `&`, `=`, `#`, `?` or space. |
| QueryEscaping.QueryEscapeUnreserved | oidc.go:75 | Unreserved text is left as it is. |
| QueryEscaping.QueryEscapeRoundTrip | oidc.go:75 | Decoding undoes the escaping on ASCII text. |
| Http.CanonicalKey | server.go:74-75 | textproto.CanonicalMIMEHeaderKey: same length. For a name of token characters, the first letter and every letter after `-` are upper case and every other letter is lower case. A name with any other character is left as it is. |
| Http.CanonicalKeyIdempotent | server.go:74-75 | A canonical key is its own canonical form. |
| Http.HeaderDel | server.go:75 | Header.Del: afterwards Header.Get of the name reads empty, and only the canonical key can disappear. |
| StdBase64.Encode | oidc.go:301 | 4·⌈n/3⌉ characters, well-formed padded base64, with as many `=` as the final quantum needs. |
| Text.ByteLength | appconfig.go:140-141 | Go's `len`: between one and four bytes per character. |
| Text.AsciiByteLength | appconfig.go:140-141 | On ASCII text, bytes and characters are counted alike. |
| Text.PrefixWithin | appconfig.go:141-142 | The longest prefix whose encoding fits in the limit: it fits, and one more character would not. |
| Text.AsciiPrefixWithin | appconfig.go:142 | On ASCII text the prefix that fits in n bytes is n characters long. |
| Text.Split | helpers/helpers.go:45 | One part more than there are separators, none containing the separator, and joining them gives the input back. |
| Text.NatToString | oidc.go:74 | `%v` of a port: at least one decimal digit, and no leading zero. |
| Text.DigitsRoundTrip | oidc.go:74 | Reading the digits back gives the number. |

## Left out

- Concurrency and the server lifecycle: ListenAndServe in a goroutine, handlers on their own goroutines, and Shutdown's 15-second grace period (server.go:23-49). The model handles incoming items one at a time, in order. Two callbacks racing to set the exit code are not modelled.
- ServerFlow.Route: does not model ServeMux's path cleaning and its 301 redirects, host or method patterns, `{wildcard}` segments, or a panic from a malformed pattern.
- The FileServer's own response, and the body `http.Redirect` writes, are not modelled; only status, headers and the bodies the handlers write are.
- Outbound HTTP (fetchMetadataDocument, the POST in redeemTokens, fetchUserInfo): these are function parameters, deterministic per call. Transport details, headers and timeouts are not modelled, and neither is the JSON decoding itself.
- Oidc.RefreshTokens: the printTokens error is modelled as the fixed text "output error: could not format result output"; the marshaller's own cause is not appended.
- printTokens' output, PrettyJson, InjectEpochFieldComments, the verbose prints and the stderr warnings: output only. Their effect is the TokensPrinted event and the printable predicate.
- The flag package: parse errors (exit 2) and `--help` are not modelled. Flags come in as values that are already parsed.
- The client-credentials flow and the ClientCredFlow setting: their source is not shown. The model takes them as a selection flag and an optional error.
- serverExit's source is not shown. It is modelled as the stop request that makes the server loop end.
- serveString: modelled as writing the success page, with the page's content as a parameter.
- Launching the browser (browser.go) is not part of this model; neither is jwt/jwt.go.
- main.go and helpers.go are an older single-file snapshot that cannot be built with the other files. helpers.go repeats helpers/helpers.go, and main.go's callback lacks the empty-code and empty-access-token checks. Only the newer files are modelled.
- Strings are sequences of Unicode scalar values. Go strings holding invalid UTF-8 are not modelled.
- AppConfig.MaskRefreshToken: when byte 15 falls inside a multi-byte character, Go's slice cuts that character's encoding and prints the broken bytes. The model keeps whole characters only, so it shows the prefix without that character.
- AppConfig.MaskedCopy: Go masks the configuration's fields in place and restores them after printing. The configuration is a value here, so only the printed copy is masked; the returned configuration is the same either way.
- Helpers.Base64UrlToBase64: the padding is chosen from the number of characters, where Go counts bytes. The two agree on base64url text, which is ASCII.
- Oidc.StartFlow: does not model three effects of http.Redirect. It sets `Content-Type: text/html; charset=utf-8` on GET and HEAD requests (the request method is not modelled). It hex-escapes non-ASCII characters in `Location`. It resolves a relative authorization endpoint against the request path. The model's `Location` is the authorization URL as built.
- Http.ResponseWriter.Redirect: `Location` is set to the URL as given. Content-Type, non-ASCII escaping, relative-URL resolution and the short HTML body are left out, as for Oidc.StartFlow.
- QueryEscapeRoundTrip: the inverse is proved for ASCII text only.
- Http.CanonicalKey: header maps hold canonical keys, as net/http builds them from the wire. Letters are ASCII-cased only; a name holding a space or other non-token character stays as it is, as textproto does. Header values are single strings: repeated values of one header are not modelled.
- ServerFlow.Serve: each request comes with its own Request and ResponseWriter (DistinctCalls), as net/http gives every request its own.
- ParseUint: Go's `uint` is taken as 64 bits wide.
- The time-zone-dependent RFC 1123 text of the Unix epoch is a parameter.
- Http.ResponseWriter.WriteHeader: requires a status in 100..999. The source passes only 302, 400 and 500 there.
