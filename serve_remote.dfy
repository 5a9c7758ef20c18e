/**
 * The serve generation's remote server (`remote.Server`): it listens through a tunnel,
 * logs the port and the tunnel address, always uses the log output and proxies every
 * request to the local port.  It keeps no history.
 */
module ServeRemote {
  import opened Base
  import opened Config
  import opened Resolve
  import opened Http
  import opened History
  import opened Output
  import opened Pipeline
  import opened Proxy
  import opened ServantLocal

  datatype RemoteStart = RemoteFatal | RemoteServing(logged: string, listener: Listener)

  class Server {
    const config: RemoteRequest
    var output: Option<Sink>

    /** `NewServer`: no output until `start` */
    constructor (config: RemoteRequest)
      ensures this.config == config && output == None
    {
      this.config := config;
      output := None;
    }

    /** `Start` and `start`: every tunnel error is fatal; otherwise the serving line and a log output */
    method Start(tunnel: ListenResult) returns (outcome: RemoteStart)
      modifies this
      ensures outcome == RemoteFatal <==> tunnel.ListenFailed?
      ensures outcome.RemoteServing? ==>
        && outcome.listener == tunnel.listener
        && outcome.logged == RemoteServingLine(config.port, tunnel.listener.address)
        && output.Some? && fresh(output.value)
        && output.value.kind == LogOutput && output.value.written == [] && output.value.announced == []
      ensures outcome == RemoteFatal ==> output == old(output)
    {
      if tunnel.ListenFailed? {
        return RemoteFatal;
      }
      var sink := new Sink(LogOutput);
      output := Some(sink);
      outcome := RemoteServing(RemoteServingLine(config.port, tunnel.listener.address), tunnel.listener);
    }

    /** `handleRequest`: requests only arrive once `start` has set the output */
    method HandleRequest(r: Incoming, requestValid: bool, client: ClientOutcome, initialStatus: int, elapsed: Duration, w: ResponseWriter)
      returns (outcome: ProxyOutcome, outbound: Option<Outbound>)
      requires output.Some?
      modifies w, output.value
      ensures outcome == CreateFailed <==> !requestValid
      ensures requestValid ==> outbound == Some(Outbound(r.verb, ProxyUrl(config.port, r.path), r.body))
      ensures !requestValid ==> outbound == None
      ensures outcome == ClientFailed <==> requestValid && !client.Responded?
      ensures outcome == CopyFailed <==> requestValid && client.Responded? && client.copyFailed
      ensures outcome == Proxied <==> requestValid && client.Responded? && !client.copyFailed
      ensures !requestValid || client == OtherClientError ==>
        w.header == old(w.header) && w.status == old(w.status) && w.body == old(w.body)
      ensures requestValid && client == Refused ==>
        && w.header == old(w.header)
        && w.status == StatusAfter(old(w.status), None)
        && w.body == old(w.body) + RefusedMessage(ServePrefix, config.port)
      ensures requestValid && client.Responded? ==>
        && w.header == Merged(old(w.header), client.header)
        && w.status == StatusAfter(old(w.status), Some(client.status))
        && w.body == old(w.body) + client.copied
      ensures outcome == Proxied ==> output.value.written == old(output.value.written) + [MakeRecord(r, w.header, initialStatus, elapsed)]
      ensures outcome != Proxied ==> output.value.written == old(output.value.written)
    {
      outcome, outbound := HandleRemote(config.port, r, requestValid, client, initialStatus, elapsed, w, output.value);
    }
  }
}
