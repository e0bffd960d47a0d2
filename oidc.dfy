/** oidc.go: the authorization request (RFC 6749 section 4.1.1 with the
    PKCE parameters of RFC 7636 section 4.3), the callback that checks it
    and redeems the code (sections 4.1.2, 4.1.3 and 10.12), the refresh
    grant (section 6), and the token-response policy. The token endpoint,
    the userinfo endpoint and stdout are reached through `Io`. */
module Oidc {
  import opened Wrappers
  import opened Text
  import opened QueryEscaping
  import opened AppConfig
  import opened Tokens
  import opened Http
  import opened ExitState
  import Server

  // ---------------------------------------------------------------------
  // Authorization request

  /** The redirect URI registered for the local callback:
      `http://localhost:<port><callback path>`, the port in decimal. */
  function RedirectUri(c: Config): (uri: string)
    ensures StartsWith(uri, "http://localhost:") && EndsWith(uri, c.callbackPath)
    ensures 17 <= |uri| - |c.callbackPath| && uri[17..|uri| - |c.callbackPath|] == NatToString(c.port)
  {
    var prefix := "http://localhost:" + NatToString(c.port);
    assert (prefix + c.callbackPath)[..|prefix|] == prefix;
    assert (prefix + c.callbackPath)[|prefix|..] == c.callbackPath;
    assert prefix[..17] == "http://localhost:";
    prefix + c.callbackPath
  }

  /** The authorization request's query parameters, in the order they are
      written. */
  function AuthQueryParams(c: Config): (params: seq<string>)
    ensures |params| == (if c.pkce then 7 else 5)
  {
    ["client_id=" + c.clientId,
     "redirect_uri=" + RedirectUri(c),
     "scope=" + QueryEscape(c.scope),
     "response_type=code",
     "state=" + c.state]
    + (if c.pkce then ["code_challenge=" + c.codeChallenge, "code_challenge_method=S256"] else [])
  }

  /** The URL startFlow redirects the browser to. Only the scope is escaped. */
  function AuthorizationUrl(c: Config): (url: string)
    ensures StartsWith(url, c.authEndpoint + "?client_id=" + c.clientId + "&redirect_uri=")
  {
    var head := c.authEndpoint + "?client_id=" + c.clientId + "&redirect_uri=";
    var url := head + RedirectUri(c) + "&scope=" + QueryEscape(c.scope) + "&response_type=code&state=" + c.state;
    var full := if c.pkce then url + "&code_challenge=" + c.codeChallenge + "&code_challenge_method=S256" else url;
    assert full == head + (full[|head|..]);
    full
  }

  /** The URL is the endpoint, `?`, and the query parameters joined by `&`. */
  lemma AuthorizationUrlIsJoin(c: Config)
    ensures AuthorizationUrl(c) == c.authEndpoint + "?" + Join(AuthQueryParams(c), '&')
  {
    var ps := AuthQueryParams(c);
    JoinFive(ps[0], ps[1], ps[2], ps[3], ps[4]);
    assert ps[..5] == [ps[0], ps[1], ps[2], ps[3], ps[4]];
    UrlShape(c.authEndpoint, c.clientId, RedirectUri(c), QueryEscape(c.scope), c.state);
    if c.pkce {
      JoinAppend(ps[..5], ps[5], ps[6]);
      assert ps == ps[..5] + [ps[5], ps[6]];
      PkceShape(c.authEndpoint + "?", Join(ps[..5], '&'), c.codeChallenge);
    } else {
      assert ps == ps[..5];
    }
  }

  lemma UrlShape(endpoint: string, clientId: string, redirect: string, scope: string, state: string)
    ensures endpoint + "?client_id=" + clientId + "&redirect_uri=" + redirect + "&scope=" + scope
            + "&response_type=code&state=" + state
         == endpoint + "?" + (("client_id=" + clientId) + "&" + ("redirect_uri=" + redirect) + "&"
            + ("scope=" + scope) + "&" + "response_type=code" + "&" + ("state=" + state))
  {
    QueryLiterals();
    var b1 := "client_id=" + clientId;
    assert endpoint + "?client_id=" + clientId == endpoint + "?" + b1;
    Regroup(endpoint + "?", b1, "&", "redirect_uri=", redirect);
    var b2 := b1 + "&" + ("redirect_uri=" + redirect);
    Regroup(endpoint + "?", b2, "&", "scope=", scope);
    var b3 := b2 + "&" + ("scope=" + scope);
    Regroup(endpoint + "?", b3, "&" + "response_type=code" + "&", "state=", state);
    Regroup3(b3, "&", "response_type=code", "&", "state=" + state);
  }

  /** The literal pieces of the URL, each split at its separator. */
  lemma QueryLiterals()
    ensures "?client_id=" == "?" + "client_id="
    ensures "&redirect_uri=" == "&" + "redirect_uri="
    ensures "&scope=" == "&" + "scope="
    ensures "&response_type=code&state=" == "&" + "response_type=code" + "&" + "state="
  {
  }

  /** Moving one `name=value` parameter under the query. */
  lemma Regroup(head: string, query: string, sep: string, name: string, value: string)
    ensures head + query + (sep + name) + value == head + (query + sep + (name + value))
  {
  }

  lemma Regroup3(query: string, a: string, b: string, c: string, rest: string)
    ensures query + (a + b + c) + rest == query + a + b + c + rest
  {
  }

  lemma PkceShape(head: string, query: string, challenge: string)
    ensures head + query + "&code_challenge=" + challenge + "&code_challenge_method=S256"
         == head + (query + "&" + ("code_challenge=" + challenge) + "&" + "code_challenge_method=S256")
  {
  }

  lemma JoinFive(a: string, b: string, c: string, d: string, e: string)
    ensures Join([a, b, c, d, e], '&') == a + "&" + b + "&" + c + "&" + d + "&" + e
  {
    assert [d, e][1..] == [e];
    assert Join([d, e], '&') == d + "&" + e;
    assert [c, d, e][1..] == [d, e];
    assert Join([c, d, e], '&') == c + "&" + (d + "&" + e);
    assert [b, c, d, e][1..] == [c, d, e];
    assert Join([b, c, d, e], '&') == b + "&" + (c + "&" + (d + "&" + e));
    assert [a, b, c, d, e][1..] == [b, c, d, e];
    assert Join([a, b, c, d, e], '&') == a + "&" + (b + "&" + (c + "&" + (d + "&" + e)));
  }

  lemma {:induction false} JoinAppend(ps: seq<string>, x: string, y: string)
    requires |ps| >= 1
    ensures Join(ps + [x, y], '&') == Join(ps, '&') + "&" + x + "&" + y
  {
    if |ps| == 1 {
      assert ps + [x, y] == [ps[0], x, y];
      assert [x, y][1..] == [y];
      assert Join([x, y], '&') == x + "&" + y;
      assert [ps[0], x, y][1..] == [x, y];
      assert Join([ps[0], x, y], '&') == ps[0] + "&" + (x + "&" + y);
    } else {
      JoinAppend(ps[1..], x, y);
      assert (ps + [x, y])[1..] == ps[1..] + [x, y];
      assert (ps + [x, y])[0] == ps[0];
      assert Join(ps + [x, y], '&') == ps[0] + "&" + (Join(ps[1..], '&') + "&" + x + "&" + y);
    }
  }

  /** The PKCE parameters are appended exactly when PKCE is on; the rest of
      the URL does not depend on it. */
  lemma PkceAppendsChallenge(c: Config)
    ensures AuthorizationUrl(c) == AuthorizationUrl(c.(pkce := false))
      + (if c.pkce then "&code_challenge=" + c.codeChallenge + "&code_challenge_method=S256" else "")
  {
    var plain := c.(pkce := false);
    if !c.pkce {
      assert plain == c;
    } else {
      assert RedirectUri(plain) == RedirectUri(c);
      var url := c.authEndpoint + "?client_id=" + c.clientId + "&redirect_uri=" + RedirectUri(c)
        + "&scope=" + QueryEscape(c.scope) + "&response_type=code&state=" + c.state;
      assert AuthorizationUrl(plain) == url;
      assert AuthorizationUrl(c) == url + "&code_challenge=" + c.codeChallenge + "&code_challenge_method=S256";
    }
  }

  /** Configuration text that passes into the URL unescaped. */
  predicate AmpersandFree(c: Config)
  {
    '&' !in c.clientId && '&' !in c.callbackPath && '&' !in c.state && '&' !in c.codeChallenge
  }

  /** Splitting the query on `&` gives back the parameters: none of them can
      break the query apart, the escaped scope included. */
  lemma AuthQuerySplits(c: Config)
    requires AmpersandFree(c)
    ensures var url := AuthorizationUrl(c);
      var query := url[|c.authEndpoint| + 1..];
      StartsWith(url, c.authEndpoint + "?") && Split(query, '&') == AuthQueryParams(c)
  {
    var ps := AuthQueryParams(c);
    ParamsAmpersandFree(c);
    SplitJoin(ps, '&');
    AuthorizationUrlIsJoin(c);
    PrefixAndRest(c.authEndpoint + "?", Join(ps, '&'));
  }

  lemma PrefixAndRest(prefix: string, rest: string)
    ensures StartsWith(prefix + rest, prefix) && (prefix + rest)[|prefix|..] == rest
  {
  }

  lemma ParamsAmpersandFree(c: Config)
    requires AmpersandFree(c)
    ensures forall k :: 0 <= k < |AuthQueryParams(c)| ==> '&' !in AuthQueryParams(c)[k]
  {
    ParamLiteralsAmpersandFree();
    var ps := AuthQueryParams(c);
    assert '&' !in ps[0] by { NoAmpersandAppend("client_id=", c.clientId); }
    assert '&' !in ps[1] by {
      var n := NatToString(c.port);
      assert '&' !in n by {
        forall i | 0 <= i < |n| ensures n[i] != '&' { assert IsDigit(n[i]); }
      }
      NoAmpersandAppend("http://localhost:", n);
      NoAmpersandAppend("http://localhost:" + n, c.callbackPath);
      NoAmpersandAppend("redirect_uri=", RedirectUri(c));
    }
    assert '&' !in ps[2] by {
      EscapedHasNoDelimiters(c.scope);
      NoAmpersandAppend("scope=", QueryEscape(c.scope));
    }
    assert '&' !in ps[4] by { NoAmpersandAppend("state=", c.state); }
    if c.pkce {
      assert '&' !in ps[5] by { NoAmpersandAppend("code_challenge=", c.codeChallenge); }
    }
  }

  lemma ParamLiteralsAmpersandFree()
    ensures '&' !in "client_id=" && '&' !in "http://localhost:" && '&' !in "redirect_uri="
    ensures '&' !in "scope=" && '&' !in "response_type=code" && '&' !in "state="
    ensures '&' !in "code_challenge=" && '&' !in "code_challenge_method=S256"
  {
  }

  lemma NoAmpersandAppend(a: string, b: string)
    requires '&' !in a && '&' !in b
    ensures '&' !in a + b
  {
    assert forall x :: x in a + b ==> x in a || x in b;
  }

  // ---------------------------------------------------------------------
  // Token requests

  /** The code grant's form (RFC 6749 section 4.1.3 and RFC 7636 section 4.5). */
  function CodeGrantParams(c: Config, code: string): (params: map<string, string>)
    ensures params.Keys == {"grant_type", "redirect_uri", "client_id", "client_secret", "code"}
                           + (if c.pkce then {"code_verifier"} else {})
    ensures params["grant_type"] == "authorization_code"
    ensures params["redirect_uri"] == RedirectUri(c)
    ensures params["client_id"] == c.clientId && params["client_secret"] == c.clientSecret
    ensures params["code"] == code
    ensures c.pkce ==> params["code_verifier"] == c.codeVerifier
  {
    var params := map["grant_type" := "authorization_code",
                       "redirect_uri" := RedirectUri(c),
                       "client_id" := c.clientId,
                       "client_secret" := c.clientSecret,
                       "code" := code];
    if c.pkce then params["code_verifier" := c.codeVerifier] else params
  }

  /** The refresh grant's form (RFC 6749 section 6). */
  function RefreshGrantParams(c: Config, refreshToken: string): (params: map<string, string>)
    ensures params.Keys == {"grant_type", "client_id", "client_secret", "refresh_token"}
    ensures params["grant_type"] == "refresh_token"
    ensures params["client_id"] == c.clientId && params["client_secret"] == c.clientSecret
    ensures params["refresh_token"] == refreshToken
  {
    map["grant_type" := "refresh_token",
        "client_id" := c.clientId,
        "client_secret" := c.clientSecret,
        "refresh_token" := refreshToken]
  }

  /** The code grant repeats, byte for byte, the redirect URI of the
      authorization request (RFC 6749 section 4.1.3). */
  lemma RedirectUriShared(c: Config, code: string)
    ensures AuthQueryParams(c)[1] == "redirect_uri=" + CodeGrantParams(c, code)["redirect_uri"]
  {
  }

  /** What a POST to the token endpoint came to: the request could not be
      built, could not be sent, or a body came back together with the
      result of decoding it as JSON. */
  datatype Exchange =
    | BuildFailed(cause: string)
    | SendFailed(cause: string)
    | Received(body: string, decoded: Result<OAuthAccessResponse, string>)

  datatype RedeemError =
    | RequestNotBuilt(cause: string)
    | RequestNotSent(cause: string)
    | UnparsableResponse(cause: string, body: string)
    | NoAccessToken(body: string)

  /** A redemption's two results: the tokens, and the error. */
  datatype Redeemed = Redeemed(tokens: OAuthAccessResponse, err: Option<RedeemError>)

  /** redeemTokens' decision on what the token endpoint returned: accepted
      only with a non-empty access token; on any failure the zero response. */
  function RedeemTokens(exchange: Exchange): (r: Redeemed)
    ensures r.err.None? <==>
      exchange.Received? && exchange.decoded.Success? && exchange.decoded.value.accessToken != ""
    ensures r.err.None? ==> r.tokens == exchange.decoded.value
    ensures r.err.Some? ==> r.tokens == NoTokens
    ensures exchange.BuildFailed? ==> r.err == Some(RequestNotBuilt(exchange.cause))
    ensures exchange.SendFailed? ==> r.err == Some(RequestNotSent(exchange.cause))
    ensures exchange.Received? && exchange.decoded.Failure? ==>
      r.err == Some(UnparsableResponse(exchange.decoded.error, exchange.body))
    ensures exchange.Received? && exchange.decoded.Success? && exchange.decoded.value.accessToken == "" ==>
      r.err == Some(NoAccessToken(exchange.body))
  {
    match exchange
    case BuildFailed(cause) => Redeemed(NoTokens, Some(RequestNotBuilt(cause)))
    case SendFailed(cause) => Redeemed(NoTokens, Some(RequestNotSent(cause)))
    case Received(body, decoded) =>
      if decoded.Failure? then Redeemed(NoTokens, Some(UnparsableResponse(decoded.error, body)))
      else if |decoded.value.accessToken| == 0 then Redeemed(NoTokens, Some(NoAccessToken(body)))
      else Redeemed(decoded.value, None)
  }

  /** The text of a redemption error; `pretty` is PrettyJson. */
  function RedeemErrorText(e: RedeemError, pretty: string -> string): string
  {
    match e
    case RequestNotBuilt(cause) => "could not create HTTP request to redeem tokens: " + cause
    case RequestNotSent(cause) => "could not send HTTP request to redeem tokens: " + cause
    case UnparsableResponse(cause, body) =>
      "could not parse JSON response for redeemed tokens: " + cause + ", raw body: " + body
    case NoAccessToken(body) => "no access token received, JSON response:\n" + pretty(body)
  }

  // ---------------------------------------------------------------------
  // The outside world

  /** The effects the flows depend on, as functions of what they are given:
      the token endpoint's answer to a form POSTed to a URL, the userinfo
      document fetched from a URL with an access token (None on any
      failure), whether the tokens can be marshalled for printing,
      PrettyJson, and the embedded success page. */
  datatype Io = Io(
    tokenEndpoint: (string, map<string, string>) -> Exchange,
    userInfo: (string, string) -> Option<UserInfo>,
    printable: OAuthAccessResponse -> bool,
    prettyJson: string -> string,
    successPage: string)

  /** The tokens after the optional, best-effort userinfo call: a failed
      call leaves no userinfo and nothing else changes. */
  function WithUserInfo(c: Config, tokens: OAuthAccessResponse, io: Io): (t: OAuthAccessResponse)
    ensures t.(userInfo := tokens.userInfo) == tokens
    ensures !c.userInfo ==> t == tokens
  {
    if c.userInfo then tokens.(userInfo := io.userInfo(c.userInfoEndpoint, tokens.accessToken)) else tokens
  }

  /** The events of fetching userinfo (when enabled) and printing: each
      step at most once, userinfo first, and what is printed is the
      redeemed tokens with the userinfo attached. */
  function AfterRedeem(c: Config, tokens: OAuthAccessResponse, io: Io): (events: seq<Event>)
    ensures forall k :: 0 <= k < |events| ==> events[k].UserInfoRequest? || events[k].TokensPrinted?
    ensures |events| > 0 && events[0].UserInfoRequest? <==> c.userInfo
    ensures io.printable(WithUserInfo(c, tokens, io)) <==> |events| > 0 && events[|events| - 1].TokensPrinted?
    ensures |events| == (if c.userInfo then 1 else 0) + (if io.printable(WithUserInfo(c, tokens, io)) then 1 else 0)
    ensures c.userInfo ==> events[0] == UserInfoRequest(c.userInfoEndpoint, tokens.accessToken)
    ensures io.printable(WithUserInfo(c, tokens, io)) ==>
      events[|events| - 1] == TokensPrinted(WithUserInfo(c, tokens, io))
  {
    (if c.userInfo then [UserInfoRequest(c.userInfoEndpoint, tokens.accessToken)] else [])
    + (if io.printable(WithUserInfo(c, tokens, io)) then [TokensPrinted(WithUserInfo(c, tokens, io))] else [])
  }

  /** The events of the callback once its code is redeemed: the same steps
      as AfterRedeem, with the success page served between the userinfo
      request and the printing. */
  function AfterCodeRedeem(c: Config, tokens: OAuthAccessResponse, io: Io): (events: seq<Event>)
    ensures var at := if c.userInfo then 1 else 0;
      && at < |events| && events[at] == PageServed(io.successPage)
      && events[..at] + events[at + 1..] == AfterRedeem(c, tokens, io)
  {
    (if c.userInfo then [UserInfoRequest(c.userInfoEndpoint, tokens.accessToken)] else [])
    + [PageServed(io.successPage)]
    + (if io.printable(WithUserInfo(c, tokens, io)) then [TokensPrinted(WithUserInfo(c, tokens, io))] else [])
  }

  /** Everything the callback adds to the record for a request with `form`:
      one exit request, last, with 125 when the request is rejected or the
      code cannot be redeemed; a token request exactly when the checks
      pass; the success page exactly when the code is redeemed. */
  function CallbackEvents(c: Config, form: Form, io: Io): (events: seq<Event>)
    ensures |events| > 0 && events[|events| - 1].ExitRequested?
    ensures forall k :: 0 <= k < |events| - 1 ==> !events[k].ExitRequested?
    ensures events[0].TokenRequest? <==> CheckCallback(c, form).Accepted?
    ensures var v := CheckCallback(c, form);
      (events[|events| - 1].recordedCode == 125) <==>
        (!v.Accepted? || RedeemTokens(io.tokenEndpoint(c.tokenEndpoint, CodeGrantParams(c, v.code))).err.Some?)
    ensures (exists k :: 0 <= k < |events| && events[k] == PageServed(io.successPage)) <==>
      events[|events| - 1].recordedCode != 125
  {
    var v := CheckCallback(c, form);
    if !v.Accepted? then [ExitRequested(125)]
    else
      var params := CodeGrantParams(c, v.code);
      var redeemed := RedeemTokens(io.tokenEndpoint(c.tokenEndpoint, params));
      if redeemed.err.Some? then [TokenRequest(c.tokenEndpoint, params), ExitRequested(125)]
      else
        var printed := io.printable(WithUserInfo(c, redeemed.tokens, io));
        var after := AfterCodeRedeem(c, redeemed.tokens, io);
        var events := [TokenRequest(c.tokenEndpoint, params)] + after + [ExitRequested(if printed then 0 else 1)];
        assert events[1 + if c.userInfo then 1 else 0] == PageServed(io.successPage);
        events
  }

  // ---------------------------------------------------------------------
  // The handlers

  /** startFlow: redirect the browser to the authorization endpoint. */
  method StartFlow(p: Process, w: ResponseWriter)
    modifies w
    ensures w.header == old(w.header)["Location" := AuthorizationUrl(p.appConfig)]
    ensures w.status == (if old(w.status) == 0 then 302 else old(w.status))
    ensures w.body == old(w.body)
  {
    var url := AuthorizationUrl(p.appConfig);
    w.Redirect(url, 302);
  }

  /** How the callback's checks judge a request. */
  datatype CallbackVerdict =
    | ParseFailed(cause: string)
    | MissingCode
    | StateMismatch(got: string)
    | Accepted(code: string)

  /** The callback's checks, in order: the form parses, `code` is present,
      `state` is the configured one (the CSRF check of RFC 6749 section
      10.12). The code check comes first, so a request with neither gets
      MissingCode. */
  function CheckCallback(c: Config, form: Form): (v: CallbackVerdict)
    ensures v.Accepted? <==> form.Parsed? && FormValue(form, "code") != "" && FormValue(form, "state") == c.state
    ensures v.Accepted? ==> v.code == FormValue(form, "code")
    ensures v == MissingCode <==> form.Parsed? && FormValue(form, "code") == ""
    ensures v.StateMismatch? ==> v.got == FormValue(form, "state") && v.got != c.state
    ensures v.ParseFailed? <==> form.Malformed?
  {
    match form
    case Malformed(cause) => ParseFailed(cause)
    case Parsed(_) =>
      var code := FormValue(form, "code");
      if |code| == 0 then MissingCode
      else
        var state := FormValue(form, "state");
        if state != c.state then StateMismatch(state) else Accepted(code)
  }

  /** What a rejected callback reports: the summary and the cause. */
  function Rejection(c: Config, v: CallbackVerdict): (string, string)
    requires !v.Accepted?
  {
    match v
    case ParseFailed(cause) => ("could not parse query in callback", cause)
    case MissingCode => ("oauth2 flow error", "missing 'code' parameter")
    case StateMismatch(got) => ("unexpected state parameter value in callback", "expected: " + c.state + ", got: " + got)
  }

  /** The end of a callback whose code was redeemed, in this order: the
      optional userinfo call, the success page, printing, and the exit
      request (0, or 1 when printing fails). */
  method FinishCallback(p: Process, w: ResponseWriter, tokens: OAuthAccessResponse, io: Io)
    modifies p, w
    ensures p.appConfig == old(p.appConfig)
    ensures p.stopRequested && p.Valid()
    ensures w.status == (if old(w.status) == 0 then 200 else old(w.status))
    ensures w.body == old(w.body) + io.successPage
    ensures var printed := io.printable(WithUserInfo(old(p.appConfig), tokens, io));
      p.exitCode == (if printed then 0 else 1)
    ensures p.events == old(p.events) + AfterCodeRedeem(old(p.appConfig), tokens, io) + [ExitRequested(p.exitCode)]
  {
    var c := p.appConfig;
    ghost var start := p.events;
    var t := tokens;
    if c.userInfo {
      p.Record(UserInfoRequest(c.userInfoEndpoint, t.accessToken));
      t := t.(userInfo := io.userInfo(c.userInfoEndpoint, t.accessToken));
    }
    ghost var fetched := if c.userInfo then [UserInfoRequest(c.userInfoEndpoint, tokens.accessToken)] else [];
    assert t == WithUserInfo(c, tokens, io) && p.events == start + fetched;

    w.Write(io.successPage);
    p.Record(PageServed(io.successPage));

    ghost var printed := if io.printable(t) then [TokensPrinted(t)] else [];
    if io.printable(t) {
      p.Record(TokensPrinted(t));
    }
    AppendRegroup(start, fetched, [PageServed(io.successPage)], printed);
    assert p.events == old(p.events) + AfterCodeRedeem(c, tokens, io);
    if io.printable(t) {
      p.SoftExit(0);
    } else {
      p.SoftExit(1);
    }
  }

  /** oauth2CodeCallback. A rejected request gets 400 and no token request
      is made; a failed redemption gets 500; otherwise the success page is
      served, the tokens printed, and exit requested with 0 (1 when printing
      fails). Every path ends in softExit, and the configuration (so the
      expected state) is left as it was. */
  method OAuth2CodeCallback(p: Process, w: ResponseWriter, r: Request, io: Io)
    modifies p, w
    ensures p.appConfig == old(p.appConfig)
    ensures p.stopRequested && p.Valid()
    ensures var c := old(p.appConfig);
      var v := CheckCallback(c, r.form);
      !v.Accepted? ==>
        && w.status == (if old(w.status) == 0 then 400 else old(w.status))
        && w.body == old(w.body) + Server.ErrorMessage(Rejection(c, v).0, Rejection(c, v).1)
        && p.exitCode == 125
        && p.events == old(p.events) + [ExitRequested(125)]
    ensures var c := old(p.appConfig);
      var v := CheckCallback(c, r.form);
      v.Accepted? ==> CodeRedeemed(c, v.code, io, old(w.status), old(w.body), old(p.events), w.status, w.body, p.exitCode, p.events)
    ensures p.events == old(p.events) + CallbackEvents(old(p.appConfig), r.form, io)
  {
    var c := p.appConfig;
    var v := CheckCallback(c, r.form);
    if !v.Accepted? {
      var (summary, err) := Rejection(c, v);
      Server.ReportErrorAndSoftExit(p, summary, err, 400, w);
      return;
    }
    RedeemCode(p, w, v.code, io);
  }

  /** What the callback does once it has accepted `code`: the token request,
      then either a 500 and exit 125 when redemption fails, or the userinfo
      request when enabled, the success page with 200, the printed tokens
      and exit 0 (1 when printing fails). */
  ghost predicate CodeRedeemed(c: Config, code: string, io: Io, status0: int, body0: string, events0: seq<Event>,
                               status: int, body: string, exitCode: int, events: seq<Event>)
  {
    var params := CodeGrantParams(c, code);
    var redeemed := RedeemTokens(io.tokenEndpoint(c.tokenEndpoint, params));
    if redeemed.err.Some? then
      && status == (if status0 == 0 then 500 else status0)
      && body == body0 + Server.ErrorMessage("oauth2 flow error", RedeemErrorText(redeemed.err.value, io.prettyJson))
      && exitCode == 125
      && events == events0 + [TokenRequest(c.tokenEndpoint, params), ExitRequested(125)]
    else
      var printed := io.printable(WithUserInfo(c, redeemed.tokens, io));
      && status == (if status0 == 0 then 200 else status0)
      && body == body0 + io.successPage
      && exitCode == (if printed then 0 else 1)
      && events == events0 + [TokenRequest(c.tokenEndpoint, params)]
                    + AfterCodeRedeem(c, redeemed.tokens, io) + [ExitRequested(exitCode)]
  }

  /** The part of the callback after the code and state are accepted. */
  method RedeemCode(p: Process, w: ResponseWriter, code: string, io: Io)
    modifies p, w
    ensures p.appConfig == old(p.appConfig)
    ensures p.stopRequested && p.Valid()
    ensures CodeRedeemed(old(p.appConfig), code, io, old(w.status), old(w.body), old(p.events),
                         w.status, w.body, p.exitCode, p.events)
  {
    var c := p.appConfig;
    var params := CodeGrantParams(c, code);
    p.Record(TokenRequest(c.tokenEndpoint, params));
    var redeemed := RedeemTokens(io.tokenEndpoint(c.tokenEndpoint, params));
    if redeemed.err.Some? {
      Server.ReportErrorAndSoftExit(p, "oauth2 flow error", RedeemErrorText(redeemed.err.value, io.prettyJson), 500, w);
      return;
    }
    FinishCallback(p, w, redeemed.tokens, io);
  }

  /** refreshTokens: redeem the refresh token, fetch userinfo when enabled,
      print. Returns the error text on failure; it never requests exit. */
  method RefreshTokens(p: Process, refreshToken: string, io: Io) returns (err: Option<string>)
    requires p.Valid()
    modifies p
    ensures p.Valid()
    ensures p.appConfig == old(p.appConfig) && p.exitCode == old(p.exitCode)
    ensures p.stopRequested == old(p.stopRequested)
    ensures var c := old(p.appConfig);
      var params := RefreshGrantParams(c, refreshToken);
      var redeemed := RedeemTokens(io.tokenEndpoint(c.tokenEndpoint, params));
      && (redeemed.err.Some? ==>
            err == Some("could not redeem tokens: " + RedeemErrorText(redeemed.err.value, io.prettyJson))
            && p.events == old(p.events) + [TokenRequest(c.tokenEndpoint, params)])
      && (redeemed.err.None? ==>
            p.events == old(p.events) + [TokenRequest(c.tokenEndpoint, params)] + AfterRedeem(c, redeemed.tokens, io)
            && (err.None? <==> io.printable(WithUserInfo(c, redeemed.tokens, io))))
  {
    var c := p.appConfig;
    var params := RefreshGrantParams(c, refreshToken);
    p.Record(TokenRequest(c.tokenEndpoint, params));
    var redeemed := RedeemTokens(io.tokenEndpoint(c.tokenEndpoint, params));
    if redeemed.err.Some? {
      return Some("could not redeem tokens: " + RedeemErrorText(redeemed.err.value, io.prettyJson));
    }

    var tokens := redeemed.tokens;
    var mark := p.events;
    if c.userInfo {
      p.Record(UserInfoRequest(c.userInfoEndpoint, tokens.accessToken));
      tokens := tokens.(userInfo := io.userInfo(c.userInfoEndpoint, tokens.accessToken));
    }

    if io.printable(tokens) {
      p.Record(TokensPrinted(tokens));
      err := None;
    } else {
      err := Some("output error: could not format result output");
    }
    assert p.events == mark + AfterRedeem(c, redeemed.tokens, io);
  }
}
