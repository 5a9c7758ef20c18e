/**
 * The servant generation's assembly (`New`) and start-up (`Start`/`start`): which output,
 * transport and handler a configuration gets, what a failed listen does, what `Init` is
 * told, and where the browser is launched.  The remote transport (`remote.Init`) listens
 * through a tunnel whose outcome is an input, like the TCP listen of the local transport.
 */
module Servant {
  import opened Base
  import opened GoText
  import opened Config
  import opened Resolve
  import opened BuildInfo
  import opened Output
  import opened ServantLocal

  datatype TransportKind = LocalTransport | RemoteTransport
  datatype HandlerKind = LocalHandlerKind | ProxyHandlerKind

  /** What the process meets while being assembled */
  datatype Environment = Environment(
    listen: ListenResult,            // `net.Listen` on host:port
    tunnel: ListenResult,            // `localtunnel.Listen`
    localIP: string,
    generated: Certificate,          // the pair auto-TLS generates
    build: BuildInfo)

  /** The assembled servant: the `Servant` struct, with the serve mode its transport's `Start` uses */
  datatype Assembled = Assembled(
    config: Configuration,
    transport: TransportKind,
    handler: HandlerKind,
    output: Sink,
    listener: Option<Listener>,
    addresses: seq<string>,
    mode: ServeMode)

  datatype NewOutcome = Fatal(message: string) | InitPanic | Constructed(servant: Assembled)

  function OutputKindFor(config: Configuration): (k: OutputKind)
    ensures k == LogOutput <==> config.disableTUI
  {
    if config.disableTUI then LogOutput else TuiOutput
  }

  /** Local type without expose uses the local transport; every other configuration the tunnel */
  function TransportFor(config: Configuration): (t: TransportKind)
    ensures t == LocalTransport <==> config.kind == TypeLocal && !config.expose
  {
    if config.kind == TypeLocal && !config.expose then LocalTransport else RemoteTransport
  }

  /** Local type serves files (exposed or not); every other type proxies */
  function HandlerFor(config: Configuration): (h: HandlerKind)
    ensures h == LocalHandlerKind <==> config.kind == TypeLocal
  {
    if config.kind == TypeLocal then LocalHandlerKind else ProxyHandlerKind
  }

  /** `remote.Init`: the tunnel address as the only address, or the error */
  function RemoteInit(tunnel: ListenResult): (r: InitOutcome)
    ensures r.InitDone?
    ensures tunnel.Listening? ==> r.listener == Some(tunnel.listener) && r.addresses == [tunnel.listener.address] && r.err == None
    ensures tunnel.ListenFailed? ==> r.listener == None && r.addresses == [] && r.err == Some(tunnel.error)
  {
    match tunnel
    case Listening(l) => InitDone(Some(l), [l.address], None)
    case ListenFailed(e) => InitDone(None, [], Some(e))
  }

  /** The addresses the local transport announces after a listen */
  function LocalAddresses(config: Configuration, env: Environment): (addresses: seq<string>)
    requires ServantNeedsListener(config) ==> env.listen.Listening?
    ensures var hosts := ServantHosts(config, ListenerOf(env.listen), env.localIP);
      |addresses| == |hosts| &&
      forall i :: 0 <= i < |addresses| ==> addresses[i] == Schema(config.tls) + "://" + hosts[i]
    ensures config.expose ==> addresses == [Schema(config.tls) + "://" + env.listen.listener.address]
  {
    Urls(ServantValues(config, ListenerOf(env.listen), env.localIP, env.generated))
  }

  /**
   * `New`.  The local transport panics when its listen failed and the port is 0; a listen
   * error that is a `*net.OpError` is fatal with the inner error's text; any other error
   * goes on with what `Init` returned.  The output is told the path and the addresses.
   */
  method New(config: Configuration, env: Environment) returns (outcome: NewOutcome)
    ensures TransportFor(config) == LocalTransport ==>
      (outcome == InitPanic <==> env.listen.ListenFailed? && config.port == 0)
    ensures TransportFor(config) == RemoteTransport ==> outcome != InitPanic
    ensures outcome.Fatal? <==>
      (if TransportFor(config) == LocalTransport
       then env.listen.ListenFailed? && config.port != 0 && env.listen.error.OpError?
       else env.tunnel.ListenFailed? && env.tunnel.error.OpError?)
    ensures outcome.Fatal? && TransportFor(config) == LocalTransport ==> outcome.message == env.listen.error.reason
    ensures outcome.Fatal? && TransportFor(config) == RemoteTransport ==> outcome.message == env.tunnel.error.reason
    ensures outcome.Constructed? ==>
      var s := outcome.servant;
      && s.config == config
      && s.transport == TransportFor(config)
      && s.handler == HandlerFor(config)
      && s.output.kind == OutputKindFor(config)
      && s.output.written == []
      && s.output.announced == [InitText(OutputKindFor(config), env.build, config.path, s.addresses)]
    ensures outcome.Constructed? && TransportFor(config) == LocalTransport ==>
      && (config.port == 0 ==> env.listen.Listening?)
      && outcome.servant.listener == ListenerOf(env.listen)
      && outcome.servant.addresses == LocalAddresses(config, env)
      && outcome.servant.mode == StartMode(config.tls, ServantValues(config, ListenerOf(env.listen), env.localIP, env.generated))
    ensures outcome.Constructed? && TransportFor(config) == RemoteTransport ==>
      && outcome.servant.listener == ListenerOf(env.tunnel)
      && outcome.servant.addresses == (if env.tunnel.Listening? then [env.tunnel.listener.address] else [])
      && outcome.servant.mode == ServePlain
  {
    var output := new Sink(OutputKindFor(config));
    var init: InitOutcome;
    var mode := ServePlain;
    if TransportFor(config) == LocalTransport {
      var local := new Local(config);
      var requested;
      requested, init := local.Init(env.listen, env.localIP, env.generated);
      if init.InitPanicked? {
        return InitPanic;
      }
      mode := local.Start();
    } else {
      init := RemoteInit(env.tunnel);
    }
    if init.err.Some? && init.err.value.OpError? {
      return Fatal(init.err.value.reason);
    }
    output.Init(env.build, config.path, init.addresses);
    outcome := Constructed(Assembled(config, TransportFor(config), HandlerFor(config), output, init.listener, init.addresses, mode));
  }

  /** What `Start` and `start` do before serving */
  datatype StartPlan = StartPanics | Starting(serverAddr: string, launch: Option<string>, mode: ServeMode)

  /**
   * `Start` reads the listener's address (a nil listener panics), `start` reads the first
   * address (an empty list panics), launches the browser there when asked, then serves.
   */
  function PlanStart(s: Assembled): (p: StartPlan)
    ensures p == StartPanics <==> s.listener.None? || s.addresses == []
    ensures p.Starting? ==>
      && p.serverAddr == s.listener.value.address
      && (p.launch.Some? <==> s.config.launch)
      && (p.launch.Some? ==> p.launch.value == s.addresses[0])
      && p.mode == s.mode
  {
    if s.listener.None? || s.addresses == [] then StartPanics
    else Starting(s.listener.value.address, if s.config.launch then Some(s.addresses[0]) else None, s.mode)
  }

  /** With an empty host the local transport announces loopback first, then the outward IP */
  lemma ServantAddressOrder(config: Configuration, env: Environment)
    requires config.host == "" && !config.expose && (config.port == 0 ==> env.listen.Listening?)
    ensures var port := ResolvedPort(config.port, ListenerOf(env.listen));
      var addresses := LocalAddresses(config, env);
      && |addresses| == 2
      && addresses[0] == Schema(config.tls) + "://127.0.0.1:" + IntToString(port)
      && addresses[1] == Schema(config.tls) + "://" + env.localIP + ":" + IntToString(port)
  {
    var listener := ListenerOf(env.listen);
    var port := ResolvedPort(config.port, listener);
    var schema := Schema(config.tls);
    var v := ServantValues(config, listener, env.localIP, env.generated);
    assert v.hosts == PlainHosts("", port, env.localIP);
    assert v.hosts == [HostPort("127.0.0.1", port), HostPort(env.localIP, port)];
    var u := Urls(v);
    assert u[0] == schema + "://" + HostPort("127.0.0.1", port);
    assert u[1] == schema + "://" + HostPort(env.localIP, port);
    assert schema + "://" + HostPort("127.0.0.1", port) == schema + "://127.0.0.1:" + IntToString(port);
    assert schema + "://" + HostPort(env.localIP, port) == schema + "://" + env.localIP + ":" + IntToString(port);
  }

  /** So the servant generation launches the browser at the loopback address */
  lemma ServantLaunchesLoopback(s: Assembled, env: Environment)
    requires s.config.host == "" && !s.config.expose && s.config.launch
    requires s.config.port == 0 ==> env.listen.Listening?
    requires s.listener.Some? && s.addresses == LocalAddresses(s.config, env)
    ensures PlanStart(s).Starting?
    ensures PlanStart(s).launch == Some(Schema(s.config.tls) + "://127.0.0.1:" + IntToString(ResolvedPort(s.config.port, ListenerOf(env.listen))))
  {
    ServantAddressOrder(s.config, env);
  }
}
