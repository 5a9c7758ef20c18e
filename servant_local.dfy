/**
 * The servant generation's local transport (`local`): it listens on host:port, resolves
 * the announced addresses and the TLS material from the listener, and serves plain or
 * over TLS.  The outcome of `net.Listen` is an input.
 */
module ServantLocal {
  import opened Base
  import opened Config
  import opened Resolve

  /** `net.Listen` failures: a `*net.OpError` (with its inner error text) or any other error */
  datatype ListenError = OpError(reason: string) | OtherListenError

  /** What a listen (TCP or tunnel) gives back */
  datatype ListenResult = Listening(listener: Listener) | ListenFailed(error: ListenError)

  /** What `Init` hands back; `InitPanicked` is the nil-listener dereference of `resolveConfig` */
  datatype InitOutcome =
    | InitPanicked
    | InitDone(listener: Option<Listener>, addresses: seq<string>, err: Option<ListenError>)

  function ListenerOf(listen: ListenResult): Option<Listener> {
    if listen.Listening? then Some(listen.listener) else None
  }

  class Local {
    const config: Configuration
    var values: ServerValues

    /** `newLocal`: nothing resolved yet */
    constructor (config: Configuration)
      ensures this.config == config && values == NoValues
    {
      this.config := config;
      values := NoValues;
    }

    /** `resolveConfig`: the hosts, schema and certificate pair the transport announces and serves with */
    method ResolveConfig(listener: Option<Listener>, localIP: string, generated: Certificate)
      requires ServantNeedsListener(config) ==> listener.Some?
      modifies this
      ensures values == ServantValues(config, listener, localIP, generated)
    {
      var port := config.port;
      if config.port == 0 {
        port := listener.value.port;
      }
      var hosts: seq<string> := [];
      if config.expose {
        hosts := hosts + [listener.value.address];
      } else if config.host == "" {
        hosts := hosts + [HostPort("127.0.0.1", port)];
        hosts := hosts + [HostPort(localIP, port)];
      } else {
        hosts := hosts + [HostPort(config.host, port)];
      }
      var certificate := Certificate("", "");
      var schema := "http";
      if config.tls.WantsTLS() {
        schema := "https";
        if config.tls.WantsAutoTLS() {
          certificate := generated;
        } else {
          certificate := Certificate(config.tls.certFile, config.tls.keyFile);
        }
      }
      values := ServerValues(hosts, schema, certificate);
    }

    /** `addresses`: one URL per resolved host, in order */
    method Addresses() returns (addresses: seq<string>)
      ensures addresses == Urls(values)
      ensures forall i :: 0 <= i < |addresses| ==> addresses[i] == values.schema + "://" + values.hosts[i]
    {
      addresses := [];
      for i := 0 to |values.hosts|
        invariant |addresses| == i
        invariant forall j :: 0 <= j < i ==> addresses[j] == values.schema + "://" + values.hosts[j]
      {
        addresses := addresses + [values.schema + "://" + values.hosts[i]];
      }
    }

    /**
     * `Init`: listen on `host:port` (the address `requested`), resolve even when the listen
     * failed, and return the listener, the addresses and the error.  Resolution needs the
     * listener when the port is 0 or the transport is exposed; without one it panics.
     */
    method Init(listen: ListenResult, localIP: string, generated: Certificate)
      returns (requested: string, outcome: InitOutcome)
      modifies this
      ensures requested == HostPort(config.host, config.port)
      ensures outcome == InitPanicked <==> listen.ListenFailed? && ServantNeedsListener(config)
      ensures outcome.InitDone? ==>
        && values == ServantValues(config, ListenerOf(listen), localIP, generated)
        && outcome.listener == ListenerOf(listen)
        && outcome.addresses == Urls(values)
        && (outcome.err.Some? <==> listen.ListenFailed?)
        && (listen.ListenFailed? ==> outcome.err == Some(listen.error))
      ensures outcome == InitPanicked ==> values == old(values)
    {
      requested := HostPort(config.host, config.port);
      var listener := ListenerOf(listen);
      if listener.None? && ServantNeedsListener(config) {
        return requested, InitPanicked;
      }
      ResolveConfig(listener, localIP, generated);
      var addresses := Addresses();
      var err := if listen.ListenFailed? then Some(listen.error) else None;
      outcome := InitDone(listener, addresses, err);
    }

    /** `Start`: TLS serving with the resolved pair exactly when TLS is wanted */
    method Start() returns (mode: ServeMode)
      ensures mode.ServeTLS? <==> config.tls.WantsTLS()
      ensures mode.ServeTLS? ==> mode == ServeTLS(values.certificate.certFile, values.certificate.keyFile)
    {
      if config.tls.WantsTLS() {
        mode := ServeTLS(values.certificate.certFile, values.certificate.keyFile);
      } else {
        mode := ServePlain;
      }
    }
  }
}
