/** serveAuthCodeFlow: the route table of the local server, and the server
    run as a loop over the requests and signals that reach it, until an
    exit is requested or the user interrupts. */
module ServerFlow {
  import opened Text
  import opened Http
  import opened ExitState
  import AppConfig
  import Server
  import Oidc

  /** The handlers the server registers. */
  datatype Handler = StaticFiles | CodeCallback | Login

  /** The patterns, in registration order: "/" for the static files, the
      callback path, then "/login". */
  function Patterns(callbackPath: string): (ps: seq<string>)
    ensures |ps| == 3 && ps[0] == "/" && ps[1] == callbackPath && ps[2] == "/login"
  {
    ["/", callbackPath, "/login"]
  }

  /** ServeMux refuses a pattern registered twice, by panicking. */
  predicate RegistrationPanics(callbackPath: string)
  {
    callbackPath == "/" || callbackPath == "/login"
  }

  /** A pattern ending in `/` matches its whole subtree, any other pattern
      only its own path. */
  predicate Matches(pattern: string, path: string)
  {
    if EndsWith(pattern, "/") then StartsWith(path, pattern) else path == pattern
  }

  /** The handler ServeMux picks for a path: the most specific pattern
      that matches, "/" matching everything. */
  function Route(callbackPath: string, path: string): (h: Handler)
    requires !RegistrationPanics(callbackPath)
    ensures h == Login <==> path == "/login"
    ensures h == CodeCallback <==> path != "/login" && Matches(callbackPath, path)
    ensures path == callbackPath ==> h == CodeCallback
    ensures h == StaticFiles <==> path != "/login" && !Matches(callbackPath, path)
  {
    if path == "/login" then Login
    else if Matches(callbackPath, path) then CodeCallback
    else StaticFiles
  }

  /** What reaches the server: a request with its response writer, or SIGINT. */
  datatype Incoming = Call(r: Request, w: ResponseWriter) | Interrupt

  function Writers(incoming: seq<Incoming>): set<ResponseWriter>
  {
    set k | 0 <= k < |incoming| && incoming[k].Call? :: incoming[k].w
  }

  function Requests(incoming: seq<Incoming>): set<Request>
  {
    set k | 0 <= k < |incoming| && incoming[k].Call? :: incoming[k].r
  }

  /** The headers an item arrives with; SIGINT carries none. */
  ghost function Arrival(item: Incoming): Headers
    reads if item.Call? then {item.r, item.w} else {}
  {
    if item.Call? then (item.r.header, item.w.header) else (map[], map[])
  }

  /** net/http gives every request its own Request and ResponseWriter. */
  predicate DistinctCalls(incoming: seq<Incoming>)
  {
    forall i, j :: 0 <= i < j < |incoming| && incoming[i].Call? && incoming[j].Call? ==>
      incoming[i].r != incoming[j].r && incoming[i].w != incoming[j].w
  }

  /** Whether handling `item` stops the server: SIGINT does, and so does
      every request routed to the callback, which always requests exit. */
  predicate Stops(callbackPath: string, item: Incoming)
    requires !RegistrationPanics(callbackPath)
  {
    item.Interrupt? || Route(callbackPath, item.r.path) == CodeCallback
  }

  /** The request's and the response's headers as an item reaches its
      handler. */
  type Headers = (map<string, string>, map<string, string>)

  /** What handling `item`, whose request and response headers were
      `before`, adds to the record: nothing for SIGINT and for "/login";
      for a static path the file server's one call, seeing the request
      headers without the ETag and If-* values and answering with the
      response headers plus the no-cache headers; `callback` of the
      request's form for the callback path. */
  ghost predicate HandledBy(callbackPath: string, epoch: string, callback: Form -> seq<Event>,
                            item: Incoming, before: Headers, events: seq<Event>)
    requires !RegistrationPanics(callbackPath)
  {
    match item
    case Interrupt => events == []
    case Call(r, _) =>
      match Route(callbackPath, r.path)
      case Login => events == []
      case StaticFiles =>
        && |events| == 1 && events[0].StaticServed? && events[0].path == r.path
        && events[0].requestHeader == Server.WithoutEtags(before.0)
        && events[0].responseHeader == before.1 + Server.NoCacheHeaders(epoch)
      case CodeCallback => events == callback(r.form)
  }

  /** The callback's events, as a function of the request's form. */
  function CallbackOf(c: AppConfig.Config, io: Oidc.Io): Form -> seq<Event>
  {
    form => Oidc.CallbackEvents(c, form, io)
  }

  /** What the server's handlers add to the record for `item`. */
  ghost predicate Handled(c: AppConfig.Config, io: Oidc.Io, epoch: string, item: Incoming,
                          before: Headers, events: seq<Event>)
    requires !RegistrationPanics(c.callbackPath)
  {
    HandledBy(c.callbackPath, epoch, CallbackOf(c, io), item, before, events)
  }

  /** The events of the items handled, in order. */
  function Flatten(segments: seq<seq<Event>>): seq<Event>
  {
    if segments == [] then [] else Flatten(segments[..|segments| - 1]) + segments[|segments| - 1]
  }

  /** Handle one request with the handler its path routes to. */
  method Dispatch(p: Process, r: Request, w: ResponseWriter, io: Oidc.Io, epoch: string)
    requires p.Valid() && !RegistrationPanics(p.appConfig.callbackPath)
    modifies p, w, r
    ensures p.Valid() && p.appConfig == old(p.appConfig)
    ensures |old(p.events)| <= |p.events| && p.events[..|old(p.events)|] == old(p.events)
    ensures Handled(p.appConfig, io, epoch, Call(r, w), (old(r.header), old(w.header)), p.events[|old(p.events)|..])
    ensures p.stopRequested <==> old(p.stopRequested) || Stops(p.appConfig.callbackPath, Call(r, w))
    ensures !Stops(p.appConfig.callbackPath, Call(r, w)) ==> p.exitCode == old(p.exitCode)
    // "/login" redirects the browser to the authorization request
    ensures Route(p.appConfig.callbackPath, r.path) == Login ==>
      && w.header == old(w.header)["Location" := Oidc.AuthorizationUrl(p.appConfig)]
      && w.status == (if old(w.status) == 0 then 302 else old(w.status))
      && w.body == old(w.body) && r.header == old(r.header)
    // a static path is served with the validators stripped and caching off
    ensures Route(p.appConfig.callbackPath, r.path) == StaticFiles ==>
      && r.header == Server.WithoutEtags(old(r.header))
      && w.header == old(w.header) + Server.NoCacheHeaders(epoch)
      && w.status == old(w.status) && w.body == old(w.body)
  {
    match Route(p.appConfig.callbackPath, r.path)
    case Login =>
      Oidc.StartFlow(p, w);
    case CodeCallback =>
      Oidc.OAuth2CodeCallback(p, w, r, io);
    case StaticFiles =>
      Server.NoCache(p, w, r, epoch);
  }

  /** One turn of the server loop: SIGINT stops the server, a request is
      dispatched. Returns (as ghosts) the headers the item came with and
      what the turn added to the record. */
  method Step(p: Process, incoming: seq<Incoming>, at: nat, io: Oidc.Io, epoch: string,
               ghost callback: Form -> seq<Event>, ghost arrivals: seq<Headers>)
    returns (ghost before: Headers, ghost segment: seq<Event>)
    requires p.Valid() && !p.stopRequested && !RegistrationPanics(p.appConfig.callbackPath)
    requires at < |incoming| == |arrivals| && DistinctCalls(incoming)
    requires forall j :: at <= j < |incoming| ==> Arrival(incoming[j]) == arrivals[j]
    requires forall form {:trigger Oidc.CallbackEvents(p.appConfig, form, io)} ::
      callback(form) == Oidc.CallbackEvents(p.appConfig, form, io)
    modifies p, if incoming[at].Call? then {incoming[at].r, incoming[at].w} else {}
    ensures p.Valid() && p.appConfig == old(p.appConfig)
    ensures p.events == old(p.events) + segment
    ensures before == arrivals[at]
    ensures forall j :: at < j < |incoming| ==> Arrival(incoming[j]) == arrivals[j]
    ensures HandledBy(p.appConfig.callbackPath, epoch, callback, incoming[at], before, segment)
    ensures p.stopRequested <==> Stops(p.appConfig.callbackPath, incoming[at])
    ensures !p.stopRequested || incoming[at].Interrupt? ==> p.exitCode == old(p.exitCode)
  {
    var item := incoming[at];
    before := Arrival(item);
    match item {
      case Interrupt =>
        p.Interrupt();
      case Call(r, w) =>
        Dispatch(p, r, w, io, epoch);
    }
    segment := p.events[|old(p.events)|..];
    assert p.events == old(p.events) + segment;
  }

  /** Each of the first |handled| items, with the headers in `seen`,
      added the matching segment. */
  ghost predicate AllHandledBy(callbackPath: string, epoch: string, callback: Form -> seq<Event>,
                               incoming: seq<Incoming>, seen: seq<Headers>, handled: seq<seq<Event>>)
    requires !RegistrationPanics(callbackPath)
  {
    && |handled| <= |incoming| && |seen| == |handled|
    && forall k {:trigger HandledBy(callbackPath, epoch, callback, incoming[k], seen[k], handled[k])} ::
      0 <= k < |handled| ==> HandledBy(callbackPath, epoch, callback, incoming[k], seen[k], handled[k])
  }

  lemma AllHandledAppend(callbackPath: string, epoch: string, callback: Form -> seq<Event>,
                         incoming: seq<Incoming>, seen: seq<Headers>, handled: seq<seq<Event>>,
                         before: Headers, segment: seq<Event>)
    requires !RegistrationPanics(callbackPath)
    requires AllHandledBy(callbackPath, epoch, callback, incoming, seen, handled) && |handled| < |incoming|
    requires HandledBy(callbackPath, epoch, callback, incoming[|handled|], before, segment)
    ensures AllHandledBy(callbackPath, epoch, callback, incoming, seen + [before], handled + [segment])
  {
  }

  lemma FlattenAppend(segments: seq<seq<Event>>, segment: seq<Event>)
    ensures Flatten(segments + [segment]) == Flatten(segments) + segment
  {
    assert (segments + [segment])[..|segments|] == segments;
  }

  /** The loop of serveAuthCodeFlow: handle the items in order until one
      of them stops the server or none is left. */
  /** One turn of the serving loop: handles the next item and extends the
      record of what has been handled so far. */
  method Advance(p: Process, incoming: seq<Incoming>, consumed: nat, io: Oidc.Io, epoch: string,
                 ghost callback: Form -> seq<Event>, ghost arrivals: seq<Headers>, ghost start: seq<Event>,
                 ghost seen: seq<Headers>, ghost handled: seq<seq<Event>>)
    returns (ghost seen': seq<Headers>, ghost handled': seq<seq<Event>>)
    requires p.Valid() && !p.stopRequested && !RegistrationPanics(p.appConfig.callbackPath)
    requires consumed < |incoming| == |arrivals| && DistinctCalls(incoming)
    requires forall form {:trigger Oidc.CallbackEvents(p.appConfig, form, io)} ::
      callback(form) == Oidc.CallbackEvents(p.appConfig, form, io)
    requires AllHandledBy(p.appConfig.callbackPath, epoch, callback, incoming, seen, handled)
    requires |handled| == consumed && seen == arrivals[..consumed]
    requires forall j :: consumed <= j < |incoming| ==> Arrival(incoming[j]) == arrivals[j]
    requires p.events == start + Flatten(handled)
    modifies p, if incoming[consumed].Call? then {incoming[consumed].r, incoming[consumed].w} else {}
    ensures p.Valid() && p.appConfig == old(p.appConfig)
    ensures AllHandledBy(p.appConfig.callbackPath, epoch, callback, incoming, seen', handled')
    ensures |handled'| == consumed + 1 && seen' == arrivals[..consumed + 1]
    ensures forall j :: consumed < j < |incoming| ==> Arrival(incoming[j]) == arrivals[j]
    ensures p.events == start + Flatten(handled')
    ensures p.stopRequested <==> Stops(p.appConfig.callbackPath, incoming[consumed])
    ensures !p.stopRequested || incoming[consumed].Interrupt? ==> p.exitCode == old(p.exitCode)
  {
    ghost var before, segment := Step(p, incoming, consumed, io, epoch, callback, arrivals);
    assert arrivals[..consumed + 1] == seen + [before];
    FlattenAppend(handled, segment);
    AllHandledAppend(p.appConfig.callbackPath, epoch, callback, incoming, seen, handled, before, segment);
    seen', handled' := seen + [before], handled + [segment];
  }

  method HandleUntilStopped(p: Process, incoming: seq<Incoming>, io: Oidc.Io, epoch: string,
                            ghost callback: Form -> seq<Event>)
    returns (consumed: nat, ghost seen: seq<Headers>, ghost handled: seq<seq<Event>>)
    requires p.Valid() && !p.stopRequested && DistinctCalls(incoming)
    requires !RegistrationPanics(p.appConfig.callbackPath)
    requires forall form {:trigger Oidc.CallbackEvents(p.appConfig, form, io)} ::
      callback(form) == Oidc.CallbackEvents(p.appConfig, form, io)
    modifies p, Writers(incoming), Requests(incoming)
    ensures p.Valid() && p.appConfig == old(p.appConfig)
    ensures consumed <= |incoming| && |handled| == consumed
    ensures p.stopRequested <==> consumed > 0 && Stops(p.appConfig.callbackPath, incoming[consumed - 1])
    ensures forall k :: 0 <= k < consumed - 1 ==> !Stops(p.appConfig.callbackPath, incoming[k])
    ensures !p.stopRequested ==> consumed == |incoming|
    ensures AllHandledBy(p.appConfig.callbackPath, epoch, callback, incoming, seen, handled)
    ensures forall k :: 0 <= k < consumed ==> seen[k] == old(Arrival(incoming[k]))
    ensures p.events == old(p.events) + Flatten(handled)
    ensures !p.stopRequested || incoming[consumed - 1].Interrupt? ==> p.exitCode == old(p.exitCode)
  {
    var c := p.appConfig;
    ghost var start := p.events;
    ghost var arrivals := seq(|incoming|, j requires 0 <= j < |incoming| reads Requests(incoming), Writers(incoming) =>
      Arrival(incoming[j]));
    consumed := 0;
    seen, handled := [], [];
    while consumed < |incoming| && !p.stopRequested
      invariant consumed <= |incoming| && |handled| == consumed
      invariant p.Valid() && p.appConfig == c
      invariant p.stopRequested <==> consumed > 0 && Stops(c.callbackPath, incoming[consumed - 1])
      invariant forall k :: 0 <= k < consumed - 1 ==> !Stops(c.callbackPath, incoming[k])
      invariant AllHandledBy(c.callbackPath, epoch, callback, incoming, seen, handled)
      // each request reaches its handler with the headers it came with
      invariant seen == arrivals[..consumed]
      invariant forall j :: consumed <= j < |incoming| ==> Arrival(incoming[j]) == arrivals[j]
      invariant p.events == start + Flatten(handled)
      invariant !p.stopRequested || incoming[consumed - 1].Interrupt? ==> p.exitCode == old(p.exitCode)
      decreases |incoming| - consumed
    {
      if incoming[consumed].Call? {
        assert incoming[consumed].w in Writers(incoming) && incoming[consumed].r in Requests(incoming);
      }
      seen, handled := Advance(p, incoming, consumed, io, epoch, callback, arrivals, start, seen, handled);
      consumed := consumed + 1;
    }
  }

  /** serveAuthCodeFlow, once the routes are registered: serve what comes
      in, in order, until a handler requests exit or SIGINT arrives, then
      shut down. Returns whether the server stopped and how many of the
      incoming items it consumed, and (as a ghost) what each consumed item
      added to the record: it stops at the first item that stops it, and
      only there. */
  method Serve(p: Process, incoming: seq<Incoming>, io: Oidc.Io, epoch: string)
    returns (stopped: bool, consumed: nat, ghost seen: seq<Headers>, ghost handled: seq<seq<Event>>)
    requires p.Valid() && !p.stopRequested && DistinctCalls(incoming)
    requires !RegistrationPanics(p.appConfig.callbackPath)
    modifies p, Writers(incoming), Requests(incoming)
    ensures p.Valid() && p.appConfig == old(p.appConfig)
    ensures consumed <= |incoming| && |handled| == consumed && |seen| == consumed
    ensures stopped <==> p.stopRequested
    ensures stopped <==> consumed > 0 && Stops(p.appConfig.callbackPath, incoming[consumed - 1])
    ensures forall k :: 0 <= k < consumed - 1 ==> !Stops(p.appConfig.callbackPath, incoming[k])
    ensures !stopped ==> consumed == |incoming|
    ensures forall k :: 0 <= k < consumed ==> Handled(p.appConfig, io, epoch, incoming[k], seen[k], handled[k])
    ensures forall k :: 0 <= k < consumed ==> seen[k] == old(Arrival(incoming[k]))
    ensures p.events == old(p.events) + ([ServerStarted(Patterns(p.appConfig.callbackPath))]
      + Flatten(handled) + (if stopped then [ServerShutdown] else []))
    ensures !stopped || incoming[consumed - 1].Interrupt? ==> p.exitCode == old(p.exitCode)
  {
    ghost var start := p.events;
    p.Record(ServerStarted(Patterns(p.appConfig.callbackPath)));
    consumed, seen, handled := HandleUntilStopped(p, incoming, io, epoch, CallbackOf(p.appConfig, io));
    stopped := p.stopRequested;
    if stopped {
      p.Record(ServerShutdown);
    }
    AppendRegroup(start, [ServerStarted(Patterns(p.appConfig.callbackPath))], Flatten(handled),
                  if stopped then [ServerShutdown] else []);
  }
}
