/** main: initialise the configuration, then run exactly one of the three
    flows, and end with the process's exit code. */
module O2Token {
  import opened Wrappers
  import opened AppConfig
  import opened ExitState
  import Pkce
  import Tokens
  import Oidc
  import ServerFlow

  /** What main promises once the configuration is valid. The
      client-credentials flow is not part of this model: whether it is
      selected and how it ends are given as `clientCredFlow` and
      `clientCredErr`. `incoming` is what reaches the server, in order, and
      `handled` what each item it consumed added to the record. `exit` is
      the code the process ends with, or None while the server is still
      waiting for requests; `trace` is what the process did, in order. */
  ghost predicate Dispatched(
    config: Config, clientCredFlow: bool, clientCredErr: Option<string>,
    io: Oidc.Io, incoming: seq<ServerFlow.Incoming>, epoch: string,
    exit: Option<int>, trace: seq<Event>, seen: seq<ServerFlow.Headers>, handled: seq<seq<Event>>)
  {
    && (exit.Some? ==> IsPortableExitCode(exit.value))
    // the client-credentials flow takes priority
    && (clientCredFlow ==> exit == Some(if clientCredErr.Some? then 1 else 0) && trace == [] && handled == [])
    // then the refresh flow; the server never starts
    && (!clientCredFlow && config.refreshToken != "" ==>
          var params := Oidc.RefreshGrantParams(config, config.refreshToken);
          var redeemed := Oidc.RedeemTokens(io.tokenEndpoint(config.tokenEndpoint, params));
          && trace == [TokenRequest(config.tokenEndpoint, params)]
                      + (if redeemed.err.None? then Oidc.AfterRedeem(config, redeemed.tokens, io) else [])
          && exit == Some(if redeemed.err.None? && io.printable(Oidc.WithUserInfo(config, redeemed.tokens, io)) then 0 else 1)
          && handled == [])
    // otherwise the server; registering "/login" twice panics, and the
    // deferred exit then ends the process with the code recorded so far, 0
    && (!clientCredFlow && config.refreshToken == "" ==>
          if ServerFlow.RegistrationPanics(config.callbackPath) then
            exit == Some(0) && trace == [] && handled == []
          else
            Served(config, io, incoming, epoch, exit, trace, seen, handled))
  }

  /** What serveAuthCodeFlow promises: the server starts, handles the
      incoming items in order, each as its route says, until the first one
      that stops it, and then shuts down; the process ends with the exit
      code recorded last. */
  ghost predicate Served(
    config: Config, io: Oidc.Io, incoming: seq<ServerFlow.Incoming>, epoch: string,
    exit: Option<int>, trace: seq<Event>, seen: seq<ServerFlow.Headers>, handled: seq<seq<Event>>)
    requires !ServerFlow.RegistrationPanics(config.callbackPath)
  {
    var consumed := |handled|;
    && consumed <= |incoming| && |seen| == consumed
    && trace == [ServerStarted(ServerFlow.Patterns(config.callbackPath))] + ServerFlow.Flatten(handled)
                + (if exit.Some? then [ServerShutdown] else [])
    && (forall k :: 0 <= k < consumed ==> ServerFlow.Handled(config, io, epoch, incoming[k], seen[k], handled[k]))
    // the server stops at the first item that stops it, and only there
    && (exit.Some? <==> consumed > 0 && ServerFlow.Stops(config.callbackPath, incoming[consumed - 1]))
    && (forall k :: 0 <= k < consumed - 1 ==> !ServerFlow.Stops(config.callbackPath, incoming[k]))
    && (exit.None? ==> consumed == |incoming|)
    && (exit.Some? ==> exit.value == LastExitCode(trace))
  }

  /** Outside the server flow the process ends with 0 or 1 and never asks
      the server to stop. */
  lemma ExitWithoutServer(
    config: Config, clientCredFlow: bool, clientCredErr: Option<string>,
    io: Oidc.Io, incoming: seq<ServerFlow.Incoming>, epoch: string,
    exit: Option<int>, trace: seq<Event>, seen: seq<ServerFlow.Headers>, handled: seq<seq<Event>>)
    requires Dispatched(config, clientCredFlow, clientCredErr, io, incoming, epoch, exit, trace, seen, handled)
    requires clientCredFlow || config.refreshToken != ""
    ensures exit == Some(0) || exit == Some(1)
    ensures forall k :: 0 <= k < |trace| ==> !trace[k].ServerStarted? && !trace[k].ExitRequested? && trace[k] != ServerShutdown
  {
    if !clientCredFlow {
      var params := Oidc.RefreshGrantParams(config, config.refreshToken);
      var redeemed := Oidc.RedeemTokens(io.tokenEndpoint(config.tokenEndpoint, params));
      var after := if redeemed.err.None? then Oidc.AfterRedeem(config, redeemed.tokens, io) else [];
      assert trace == [TokenRequest(config.tokenEndpoint, params)] + after;
      forall k | 0 <= k < |trace|
        ensures !trace[k].ServerStarted? && !trace[k].ExitRequested? && trace[k] != ServerShutdown
      {
        if k > 0 {
          assert trace[k] == after[k - 1];
        }
      }
    }
  }

  /** A refresh run ends with 0 exactly when the tokens were redeemed and
      printed, which the last event shows. */
  lemma RefreshExitCode(
    config: Config, clientCredErr: Option<string>,
    io: Oidc.Io, incoming: seq<ServerFlow.Incoming>, epoch: string,
    exit: Option<int>, trace: seq<Event>, seen: seq<ServerFlow.Headers>, handled: seq<seq<Event>>)
    requires Dispatched(config, false, clientCredErr, io, incoming, epoch, exit, trace, seen, handled)
    requires config.refreshToken != ""
    ensures exit == Some(0) <==> trace[|trace| - 1].TokensPrinted?
  {
    var params := Oidc.RefreshGrantParams(config, config.refreshToken);
    var redeemed := Oidc.RedeemTokens(io.tokenEndpoint(config.tokenEndpoint, params));
    if redeemed.err.None? {
      var after := Oidc.AfterRedeem(config, redeemed.tokens, io);
      assert trace == [TokenRequest(config.tokenEndpoint, params)] + after;
      if |after| > 0 {
        assert trace[|trace| - 1] == after[|after| - 1];
      }
    }
  }

  /** serveAuthCodeFlow on a fresh process: the server runs until stopped
      or until nothing more comes in. */
  method RunServer(p: Process, incoming: seq<ServerFlow.Incoming>, io: Oidc.Io, epoch: string)
    returns (exit: Option<int>, trace: seq<Event>, ghost seen: seq<ServerFlow.Headers>, ghost handled: seq<seq<Event>>)
    requires p.Valid() && !p.stopRequested && p.events == [] && ServerFlow.DistinctCalls(incoming)
    requires !ServerFlow.RegistrationPanics(p.appConfig.callbackPath)
    modifies p, ServerFlow.Writers(incoming), ServerFlow.Requests(incoming)
    ensures Served(old(p.appConfig), io, incoming, epoch, exit, trace, seen, handled)
    ensures forall k :: 0 <= k < |seen| && k < |incoming| ==> seen[k] == old(ServerFlow.Arrival(incoming[k]))
    ensures exit.Some? ==> IsPortableExitCode(exit.value)
  {
    ghost var c := p.appConfig;
    var stopped, consumed;
    stopped, consumed, seen, handled := ServerFlow.Serve(p, incoming, io, epoch);
    exit := if stopped then Some(p.exitCode) else None;
    trace := p.events;
    assert forall k :: 0 <= k < |handled| ==> ServerFlow.Handled(c, io, epoch, incoming[k], seen[k], handled[k]);
  }

  /** main's dispatch once the configuration is valid. */
  method Dispatch(
    config: Config, clientCredFlow: bool, clientCredErr: Option<string>,
    io: Oidc.Io, incoming: seq<ServerFlow.Incoming>, epoch: string)
    returns (exit: Option<int>, trace: seq<Event>, ghost seen: seq<ServerFlow.Headers>, ghost handled: seq<seq<Event>>)
    requires ServerFlow.DistinctCalls(incoming)
    modifies ServerFlow.Writers(incoming), ServerFlow.Requests(incoming)
    ensures Dispatched(config, clientCredFlow, clientCredErr, io, incoming, epoch, exit, trace, seen, handled)
    ensures forall k :: 0 <= k < |seen| && k < |incoming| ==> seen[k] == old(ServerFlow.Arrival(incoming[k]))
  {
    var p := new Process(config);
    seen, handled := [], [];
    if clientCredFlow {
      exit := Some(if clientCredErr.Some? then 1 else p.exitCode);
      trace := [];
    } else if config.refreshToken != "" {
      var refreshErr := Oidc.RefreshTokens(p, config.refreshToken, io);
      exit := Some(if refreshErr.Some? then 1 else p.exitCode);
      trace := p.events;
    } else if ServerFlow.RegistrationPanics(config.callbackPath) {
      exit := Some(p.exitCode);
      trace := [];
    } else {
      exit, trace, seen, handled := RunServer(p, incoming, io, epoch);
    }
  }

  /** The whole run: the configuration is built from the flags, the
      environment and the metadata document; a configuration error ends the
      run with 1 before any flow starts; otherwise the flows are dispatched. */
  method Run(
    cli: Flags, env: map<string, string>,
    stateDraws: seq<nat>, verifierDraws: seq<nat>,
    sha256: string -> Pkce.Digest,
    fetchMetadata: string -> Tokens.OidcMetadata,
    clientCredFlow: bool, clientCredErr: Option<string>,
    io: Oidc.Io, incoming: seq<ServerFlow.Incoming>, epoch: string)
    returns (config: Config, exit: Option<int>, trace: seq<Event>,
             ghost seen: seq<ServerFlow.Headers>, ghost handled: seq<seq<Event>>)
    requires StateDraws(stateDraws)
    requires |verifierDraws| == Pkce.CodeLen
    requires forall i :: 0 <= i < |verifierDraws| ==> verifierDraws[i] < |Pkce.Characters|
    requires ServerFlow.DistinctCalls(incoming)
    modifies ServerFlow.Writers(incoming), ServerFlow.Requests(incoming)
    ensures Initialized(cli, env, stateDraws, verifierDraws, sha256, fetchMetadata, config)
    ensures Validate(config).Some? ==> exit == Some(1) && trace == [] && handled == []
    ensures Validate(config).None? ==>
      Dispatched(config, clientCredFlow, clientCredErr, io, incoming, epoch, exit, trace, seen, handled)
    ensures forall k :: 0 <= k < |seen| && k < |incoming| ==> seen[k] == old(ServerFlow.Arrival(incoming[k]))
  {
    var err, displayed;
    config, err, displayed := InitializeAppConfig(cli, env, stateDraws, verifierDraws, sha256, fetchMetadata);
    if err.Some? {
      return config, Some(1), [], [], [];
    }
    exit, trace, seen, handled := Dispatch(config, clientCredFlow, clientCredErr, io, incoming, epoch);
  }
}
