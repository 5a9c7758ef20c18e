/**
 * The serve generation's local server (`local.Server`): it listens on host:port, resolves
 * the listeners from the listener, announces them, picks its output, launches the browser
 * at the default listener when asked and serves plain or over TLS; its request handler is
 * the local pipeline.
 */
module ServeLocal {
  import opened Base
  import opened GoText
  import opened Config
  import opened Resolve
  import opened Http
  import opened BuildInfo
  import opened History
  import opened Output
  import opened BasicAuth
  import opened Pipeline
  import opened ServantLocal

  /** `getDefault`: the URL of the last host */
  function DefaultUrl(v: ServerValues): (url: string)
    requires v.hosts != []
    ensures url == Urls(v)[|v.hosts| - 1]
  {
    v.schema + "://" + v.hosts[|v.hosts| - 1]
  }

  datatype StartOutcome =
    | StartFatal(message: string)
    | StartPanicked
    | Serving(logged: string, launch: Option<string>, listener: Option<Listener>, mode: ServeMode)

  class Server {
    const config: ServeRequest
    var values: ServerValues
    const requests: Requests
    var output: Option<Sink>

    /** `NewServer`: an empty history, nothing resolved, no output until `start` */
    constructor (config: ServeRequest)
      ensures this.config == config && values == NoValues && output == None
      ensures fresh(requests) && requests.requests == []
    {
      this.config := config;
      values := NoValues;
      requests := new Requests();
      output := None;
    }

    /** `resolveServerConfiguration` */
    method ResolveServerConfiguration(listener: Option<Listener>, localIP: string, generated: Certificate)
      requires config.port == 0 ==> listener.Some?
      modifies this
      ensures values == ServeValues(config, listener, localIP, generated)
      ensures output == old(output)
    {
      var port := config.port;
      if config.port == 0 {
        port := listener.value.port;
      }
      var hosts: seq<string> := [];
      if config.host == "" {
        hosts := hosts + [HostPort("127.0.0.1", port)];
        hosts := hosts + [HostPort(localIP, port)];
      } else {
        hosts := hosts + [HostPort(config.host, port)];
      }
      var certificate := Certificate("", "");
      var schema := "http";
      if config.tls.WantsTLS() {
        schema := "https";
        if config.tls.WantsAutoTLS() {
          certificate := generated;
        } else {
          certificate := Certificate(config.tls.certFile, config.tls.keyFile);
        }
      }
      values := ServerValues(hosts, schema, certificate);
    }

    /** `getListenersValue`: the listener URLs joined with ", " */
    method GetListenersValue() returns (value: string)
      ensures value == Join(Urls(values), ", ")
    {
      var listeners: seq<string> := [];
      for i := 0 to |values.hosts|
        invariant listeners == Urls(values)[..i]
      {
        assert Urls(values)[..i + 1] == Urls(values)[..i] + [values.schema + "://" + values.hosts[i]];
        listeners := listeners + [values.schema + "://" + values.hosts[i]];
      }
      assert Urls(values)[..|values.hosts|] == Urls(values);
      value := Join(listeners, ", ");
    }

    /**
     * `Start` and `start` up to serving.  A listen error that is a `*net.OpError` is fatal;
     * without a listener resolution panics when the port is 0.  The serving line is logged
     * in every case; the TUI output gets it under the version banner.
     */
    method Start(listen: ListenResult, localIP: string, generated: Certificate, build: BuildInfo)
      returns (requested: string, outcome: StartOutcome)
      modifies this
      ensures requested == HostPort(config.host, config.port)
      ensures outcome.StartFatal? <==> listen.ListenFailed? && listen.error.OpError?
      ensures outcome.StartFatal? ==> outcome.message == listen.error.reason
      ensures outcome == StartPanicked <==> listen == ListenFailed(OtherListenError) && config.port == 0
      ensures outcome.Serving? ==>
        && values == ServeValues(config, ListenerOf(listen), localIP, generated)
        && outcome.logged == ServingLine(config.path, Urls(values))
        && output.Some? && fresh(output.value)
        && output.value.kind == (if config.tui then TuiOutput else LogOutput)
        && output.value.written == []
        && output.value.announced == (if config.tui then [ServeTuiInfo(build, outcome.logged)] else [])
        && (outcome.launch.Some? <==> config.launch)
        && (outcome.launch.Some? ==> outcome.launch.value == DefaultUrl(values))
        && outcome.listener == ListenerOf(listen)
        && outcome.mode == StartMode(config.tls, values)
    {
      requested := HostPort(config.host, config.port);
      if listen.ListenFailed? && listen.error.OpError? {
        return requested, StartFatal(listen.error.reason);
      }
      var listener := ListenerOf(listen);
      if listener.None? && config.port == 0 {
        return requested, StartPanicked;
      }
      ResolveServerConfiguration(listener, localIP, generated);
      var listenersValue := GetListenersValue();
      var servingInfo := "Serving " + config.path + " at " + listenersValue;
      var sink: Sink;
      if config.tui {
        sink := new Sink(TuiOutput);
        sink.Announce(ServeTuiInfo(build, servingInfo));
      } else {
        sink := new Sink(LogOutput);
      }
      output := Some(sink);
      var launch := None;
      if config.launch {
        launch := Some(DefaultUrl(values));
      }
      var mode := if config.tls.WantsTLS() then ServeTLS(values.certificate.certFile, values.certificate.keyFile) else ServePlain;
      outcome := Serving(servingInfo, launch, listener, mode);
    }

    /**
     * `handleRequest`: the local pipeline with this server's CORS flag, auth, history and
     * output.  Requests only arrive once `start` has set the output.
     */
    method HandleRequest(r: Incoming, inner: InnerResponse, initialStatus: int, elapsed: Duration, w: ResponseWriter)
      returns (outcome: Outcome)
      requires output.Some?
      modifies w, requests, output.value
      ensures outcome == Served <==> Gate(config.auth, r.credentials) == Granted
      ensures outcome == Unauthorized <==> Gate(config.auth, r.credentials) == Rejected
      ensures outcome == Aborted <==> Gate(config.auth, r.credentials) == Panicked
      ensures outcome == Served ==>
        && w.header == ServedHeader(config.cors, old(w.header), inner)
        && w.status == StatusAfter(old(w.status), inner.status)
        && w.body == old(w.body) + inner.body
      ensures outcome == Unauthorized ==>
        && w.header == RejectedHeader(old(w.header))
        && w.status == StatusAfter(old(w.status), Some(401))
        && w.body == old(w.body) + "Unauthorized\n"
      ensures outcome == Aborted ==> w.header == old(w.header) && w.status == old(w.status) && w.body == old(w.body)
      ensures outcome == Served ==>
        && requests.requests == old(requests.requests) + [MakeRecord(r, w.header, LoggedStatus(inner, initialStatus), elapsed)]
        && output.value.written == old(output.value.written) + [MakeRecord(r, w.header, LoggedStatus(inner, initialStatus), elapsed)]
      ensures outcome != Served ==> requests.requests == old(requests.requests) && output.value.written == old(output.value.written)
    {
      outcome := HandleLocal(config.cors, config.auth, r, inner, initialStatus, elapsed, w, requests, output.value);
    }
  }

  /** With an empty host the default listener is the outward IP, the last of the two */
  lemma ServeLaunchesOutwardIP(config: ServeRequest, listener: Option<Listener>, localIP: string, generated: Certificate)
    requires config.host == "" && (config.port == 0 ==> listener.Some?)
    ensures var v := ServeValues(config, listener, localIP, generated);
      v.hosts != [] && DefaultUrl(v) == Schema(config.tls) + "://" + localIP + ":" + IntToString(ResolvedPort(config.port, listener))
  {
  }

  lemma SameSuffixSamePrefix(x: string, y: string, t: string)
    requires x + t == y + t
    ensures x == y
  {
    assert |x| == |y|;
    assert x == (x + t)[..|x|];
    assert y == (y + t)[..|y|];
  }

  /**
   * Launching differs between the generations: on the same configuration with an empty
   * host, the servant generation opens the loopback URL and the serve generation the
   * outward-IP URL, which are different unless the outward IP is the loopback address.
   */
  lemma LaunchTargetsDiffer(config: Configuration, serve: ServeRequest, listener: Option<Listener>, localIP: string, generated: Certificate)
    requires !config.expose && config.host == "" && serve.host == ""
    requires config.port == serve.port && config.tls == serve.tls
    requires config.port == 0 ==> listener.Some?
    ensures var servant := Urls(ServantValues(config, listener, localIP, generated));
      var previous := ServeValues(serve, listener, localIP, generated);
      servant != [] && previous.hosts != [] &&
      (servant[0] == DefaultUrl(previous) <==> localIP == "127.0.0.1")
  {
    var port := ResolvedPort(config.port, listener);
    var schema := Schema(config.tls);
    var t := ":" + IntToString(port);
    assert HostPort("127.0.0.1", port) == "127.0.0.1" + t;
    assert HostPort(localIP, port) == localIP + t;
    var p := schema + "://";
    var x, y := "127.0.0.1" + t, localIP + t;
    if p + x == p + y {
      assert x == (p + x)[|p|..] && y == (p + y)[|p|..];
      SameSuffixSamePrefix("127.0.0.1", localIP, t);
    }
  }
}
