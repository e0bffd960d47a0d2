/** The response side of server.go: the no-cache wrapper around the static
    file server, and the error report that ends the flow. */
module Server {
  import opened Http
  import opened ExitState

  /** Validator headers removed from a request so the file server never
      answers "not modified". */
  const EtagHeaders: seq<string> :=
    ["ETag", "If-Modified-Since", "If-Match", "If-None-Match", "If-Range", "If-Unmodified-Since"]

  /** The response headers that disable caching, `epoch` being the Unix
      epoch in RFC 1123 format. */
  function NoCacheHeaders(epoch: string): (h: map<string, string>)
    ensures h.Keys == {"Expires", "Cache-Control", "Pragma", "X-Accel-Expires"}
  {
    map["Expires" := epoch,
        "Cache-Control" := "no-cache, private, max-age=0",
        "Pragma" := "no-cache",
        "X-Accel-Expires" := "0"]
  }

  /** The canonical forms of `names`. */
  function CanonicalKeys(names: seq<string>): set<string>
  {
    set n | n in names :: CanonicalKey(n)
  }

  /** The keys the ETag loop addresses once Header.Get and Header.Del have
      put its names in canonical form. */
  function EtagKeys(): set<string>
  {
    CanonicalKeys(EtagHeaders)
  }

  /** The loop names `ETag`, but Header.Get and Header.Del address it by
      its canonical form `Etag`; no validator name canonicalises to the
      literal `ETag`. */
  lemma EtagKeyIsCanonical()
    ensures CanonicalKey("ETag") == "Etag"
    ensures "Etag" in EtagKeys() && "ETag" !in EtagKeys()
  {
    assert CanonicalKey("ETag") == "Etag";
    forall n | n in EtagHeaders ensures CanonicalKey(n) != "ETag" {
      if n != "ETag" {
        assert |n| != 4;
      }
    }
  }

  /** `header` after deleting each of `names` whose value is non-empty. */
  function WithoutNonEmpty(header: map<string, string>, names: seq<string>): map<string, string>
  {
    map k | k in header && !(k in CanonicalKeys(names) && header[k] != "") :: header[k]
  }

  /** The request headers the file server sees: no validator header has a
      value any more under its canonical name, and every other header is
      as it was. */
  function WithoutEtags(header: map<string, string>): (r: map<string, string>)
    ensures forall e :: e in EtagHeaders ==> HeaderGet(r, e) == ""
    ensures forall k :: k !in EtagKeys() ==> (k in r <==> k in header)
    ensures forall k :: k in r ==> k in header && r[k] == header[k]
  {
    WithoutNonEmpty(header, EtagHeaders)
  }

  /** A request carrying a non-empty `Etag` header, the form net/http
      files it under, reaches the file server without it. */
  lemma CanonicalEtagRemoved(header: map<string, string>)
    requires "Etag" in header && header["Etag"] != ""
    ensures "Etag" !in WithoutEtags(header)
  {
    EtagKeyIsCanonical();
    assert HeaderGet(WithoutEtags(header), "ETag") == "";
  }

  lemma WithoutNonEmptyStep(header: map<string, string>, names: seq<string>, v: string)
    ensures var h := WithoutNonEmpty(header, names);
      WithoutNonEmpty(header, names + [v]) == if HeaderGet(h, v) != "" then HeaderDel(h, v) else h
  {
    var h := WithoutNonEmpty(header, names);
    var l := WithoutNonEmpty(header, names + [v]);
    var r := if HeaderGet(h, v) != "" then HeaderDel(h, v) else h;
    assert CanonicalKeys(names + [v]) == CanonicalKeys(names) + {CanonicalKey(v)} by {
      assert forall n :: n in names + [v] <==> n in names || n == v;
    }
    forall k ensures k in l <==> k in r {
    }
  }

  /** The ETag loop of the no-cache wrapper. */
  method StripEtags(r: Request)
    modifies r
    ensures r.header == WithoutEtags(old(r.header))
  {
    for i := 0 to |EtagHeaders|
      invariant r.header == WithoutNonEmpty(old(r.header), EtagHeaders[..i])
    {
      var v := EtagHeaders[i];
      WithoutNonEmptyStep(old(r.header), EtagHeaders[..i], v);
      if HeaderGet(r.header, v) != "" {
        r.header := HeaderDel(r.header, v);
      }
      assert EtagHeaders[..i + 1] == EtagHeaders[..i] + [v];
    }
    assert EtagHeaders[..|EtagHeaders|] == EtagHeaders;
  }

  /** `header` after setting each pair in turn. */
  function SetAll(header: map<string, string>, pairs: seq<(string, string)>): map<string, string>
  {
    if pairs == [] then header
    else SetAll(header, pairs[..|pairs| - 1])[pairs[|pairs| - 1].0 := pairs[|pairs| - 1].1]
  }

  /** The no-cache headers as a list, in one of the orders Go may visit
      them in. */
  function NoCacheHeaderList(epoch: string): seq<(string, string)>
  {
    [("Expires", epoch), ("Cache-Control", "no-cache, private, max-age=0"),
     ("Pragma", "no-cache"), ("X-Accel-Expires", "0")]
  }

  /** No name occurs twice in `pairs`. */
  predicate DistinctNames(pairs: seq<(string, string)>)
  {
    forall i, j :: 0 <= i < j < |pairs| ==> pairs[i].0 != pairs[j].0
  }

  /** Setting pairs in turn on `header` overlays the headers they set on
      an empty map. */
  lemma {:induction false} SetAllOverlay(header: map<string, string>, pairs: seq<(string, string)>)
    ensures SetAll(header, pairs) == header + SetAll(map[], pairs)
  {
    if pairs != [] {
      SetAllOverlay(header, pairs[..|pairs| - 1]);
    }
  }

  /** With distinct names, the headers set from `pairs` are exactly the
      pairs, whatever their order. */
  lemma {:induction false} SetAllOfDistinct(pairs: seq<(string, string)>)
    requires DistinctNames(pairs)
    ensures forall i :: 0 <= i < |pairs| ==> pairs[i].0 in SetAll(map[], pairs) && SetAll(map[], pairs)[pairs[i].0] == pairs[i].1
    ensures forall k :: k in SetAll(map[], pairs) ==> (k, SetAll(map[], pairs)[k]) in pairs
  {
    if pairs != [] {
      var init := pairs[..|pairs| - 1];
      SetAllOfDistinct(init);
      forall k | k in SetAll(map[], pairs)
        ensures (k, SetAll(map[], pairs)[k]) in pairs
      {
        if k != pairs[|pairs| - 1].0 {
          assert (k, SetAll(map[], init)[k]) in init;
        }
      }
    }
  }

  /** Go ranges over the no-cache map in an unspecified order; every order
      that visits each entry once sets the same headers. */
  lemma SetAllNoCache(header: map<string, string>, pairs: seq<(string, string)>, epoch: string)
    requires DistinctNames(pairs)
    requires forall kv :: kv in pairs <==> kv in NoCacheHeaderList(epoch)
    ensures SetAll(header, pairs) == header + NoCacheHeaders(epoch)
  {
    var m := SetAll(map[], pairs);
    var n := NoCacheHeaders(epoch);
    SetAllOfDistinct(pairs);
    forall k | k in m
      ensures k in n && n[k] == m[k]
    {
      assert (k, m[k]) in NoCacheHeaderList(epoch);
    }
    forall k | k in n
      ensures k in m
    {
      assert (k, n[k]) in NoCacheHeaderList(epoch);
      var i :| 0 <= i < |pairs| && pairs[i] == (k, n[k]);
    }
    assert m == n;
    SetAllOverlay(header, pairs);
  }

  /** The no-cache header loop of the no-cache wrapper. */
  method SetNoCacheHeaders(w: ResponseWriter, epoch: string)
    modifies w
    ensures w.header == old(w.header) + NoCacheHeaders(epoch)
    ensures w.status == old(w.status) && w.body == old(w.body)
  {
    var noCacheHeaders := NoCacheHeaderList(epoch);
    for i := 0 to |noCacheHeaders|
      invariant w.header == SetAll(old(w.header), noCacheHeaders[..i])
      invariant w.status == old(w.status) && w.body == old(w.body)
    {
      var (k, v) := noCacheHeaders[i];
      assert noCacheHeaders[..i + 1][..i] == noCacheHeaders[..i];
      w.header := w.header[k := v];
    }
    assert noCacheHeaders[..|noCacheHeaders|] == noCacheHeaders;
    SetAllNoCache(old(w.header), noCacheHeaders, epoch);
  }

  /** The no-cache wrapper of serveAuthCodeFlow's "/" route: strip the
      validator headers from the request, set the no-cache headers on the
      response, then call the file server once. The file server's call is
      the `StaticServed` event, which captures both header sets it sees. */
  method NoCache(p: Process, w: ResponseWriter, r: Request, epoch: string)
    requires p.Valid()
    modifies p, w, r
    ensures r.header == WithoutEtags(old(r.header))
    ensures w.header == old(w.header) + NoCacheHeaders(epoch)
    ensures w.status == old(w.status) && w.body == old(w.body)
    ensures p.events == old(p.events) + [StaticServed(r.path, r.header, w.header)]
    ensures p.appConfig == old(p.appConfig) && p.exitCode == old(p.exitCode)
    ensures p.stopRequested == old(p.stopRequested)
    ensures p.Valid()
  {
    StripEtags(r);
    SetNoCacheHeaders(w, epoch);
    p.Record(StaticServed(r.path, r.header, w.header));
  }

  /** The text reported for an error: the "ERROR: " marker, the summary,
      then the cause, each at a fixed place. */
  function ErrorMessage(summary: string, err: string): (msg: string)
    ensures |msg| == 9 + |summary| + |err|
    ensures msg[..7] == "ERROR: " && msg[7..7 + |summary|] == summary
    ensures msg[7 + |summary|..9 + |summary|] == ": " && msg[9 + |summary|..] == err
  {
    "ERROR: " + summary + ": " + err
  }

  /** reportErrorAndSoftExit: answer with `code` and the message when there is
      a response to write, then request exit with `code` (clamped). */
  method ReportErrorAndSoftExit(p: Process, summary: string, err: string, code: int, w: ResponseWriter?)
    requires w != null ==> IsStatusCode(code)
    modifies p, w
    ensures w != null ==> w.status == (if old(w.status) == 0 then code else old(w.status))
    ensures w != null ==> w.body == old(w.body) + ErrorMessage(summary, err) && w.header == old(w.header)
    ensures p.exitCode == ClampExitCode(code) && p.stopRequested
    ensures p.events == old(p.events) + [ExitRequested(ClampExitCode(code))]
    ensures p.appConfig == old(p.appConfig)
  {
    var msg := ErrorMessage(summary, err);
    if w != null {
      w.WriteHeader(code);
      w.Write(msg);
    }
    p.SoftExit(code);
  }
}
