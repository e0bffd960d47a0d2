/** o2token.go's process-wide state: the configuration, the exit-code cell
    that the deferred exit reads, and the stop request that softExit sends
    to the server loop. */
module ExitState {
  import AppConfig
  import Tokens

  /** What the process did, in order, beyond the HTTP responses. */
  datatype Event =
    | ServerStarted(patterns: seq<string>)
    /** An exchange with the token endpoint was attempted: it is recorded
        even when the request cannot be built or sent, so it stands for the
        attempt and not for a request that reached the endpoint. */
    | TokenRequest(endpoint: string, params: map<string, string>)
    /** The same for the userinfo endpoint. */
    | UserInfoRequest(endpoint: string, accessToken: string)
    | TokensPrinted(tokens: Tokens.OAuthAccessResponse)
    | PageServed(page: string)
    | StaticServed(path: string, requestHeader: map<string, string>, responseHeader: map<string, string>)
    | ExitRequested(recordedCode: int)
    | ServerShutdown

  /** The portable exit-code range. */
  predicate IsPortableExitCode(code: int)
  {
    0 <= code <= 125
  }

  /** The code softExit records for a requested code. */
  function ClampExitCode(code: int): (r: int)
    ensures IsPortableExitCode(r)
    ensures IsPortableExitCode(code) <==> r == code
    ensures !IsPortableExitCode(code) ==> r == 125
  {
    if code > 125 || code < 0 then 125 else code
  }

  /** Regrouping a record built up by appending pieces one after another. */
  lemma AppendRegroup(a: seq<Event>, b: seq<Event>, c: seq<Event>, d: seq<Event>)
    ensures a + b + c + d == a + (b + c + d)
  {
  }

  /** The code of the last exit request in `events`; 0, the exit code's
      initial value, when there is none. */
  function LastExitCode(events: seq<Event>): int
  {
    if events == [] then 0
    else if events[|events| - 1].ExitRequested? then events[|events| - 1].recordedCode
    else LastExitCode(events[..|events| - 1])
  }

  class Process {
    var appConfig: AppConfig.Config
    var exitCode: int
    var stopRequested: bool
    var events: seq<Event>

    /** The exit code is portable, and it is the code of the last exit
        request (0 before any). */
    predicate Valid()
      reads this
    {
      IsPortableExitCode(exitCode) && exitCode == LastExitCode(events)
    }

    /** The process right after initializeAppConfig: exit code 0. */
    constructor (config: AppConfig.Config)
      ensures appConfig == config && exitCode == 0 && !stopRequested && events == []
      ensures Valid()
    {
      appConfig := config;
      exitCode := 0;
      stopRequested := false;
      events := [];
    }

    /** softExit: records the clamped code, then asks the server to stop,
        and returns to the caller. */
    method SoftExit(code: int)
      modifies this
      ensures exitCode == ClampExitCode(code)
      ensures stopRequested
      ensures events == old(events) + [ExitRequested(ClampExitCode(code))]
      ensures appConfig == old(appConfig)
      ensures Valid()
    {
      exitCode := code;
      if code > 125 || code < 0 {
        exitCode := 125;
      }
      ServerExit();
    }

    /** serverExit: the stop request, which carries the code recorded so far. */
    method ServerExit()
      modifies this
      ensures stopRequested
      ensures events == old(events) + [ExitRequested(old(exitCode))]
      ensures LastExitCode(events) == old(exitCode)
      ensures appConfig == old(appConfig) && exitCode == old(exitCode)
    {
      events := events + [ExitRequested(exitCode)];
      stopRequested := true;
    }

    /** SIGINT: the server loop stops; the exit code is not touched. */
    method Interrupt()
      modifies this
      ensures stopRequested
      ensures events == old(events) && appConfig == old(appConfig) && exitCode == old(exitCode)
    {
      stopRequested := true;
    }

    /** Appends a step of a flow to the record. */
    method Record(e: Event)
      requires !e.ExitRequested?
      modifies this
      ensures events == old(events) + [e]
      ensures LastExitCode(events) == LastExitCode(old(events))
      ensures appConfig == old(appConfig) && exitCode == old(exitCode) && stopRequested == old(stopRequested)
    {
      events := events + [e];
      assert events[..|events| - 1] == old(events);
    }
  }
}
