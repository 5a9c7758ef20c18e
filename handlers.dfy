/**
 * The servant generation's request handlers: `localHandler` (the local pipeline around
 * the file server) and `proxyHandler` (the remote proxy).  Each owns a fresh history and
 * shares the output chosen by `New`.
 */
module Handlers {
  import opened Base
  import opened Config
  import opened Http
  import opened BasicAuth
  import opened History
  import opened Output
  import opened Pipeline
  import opened Proxy

  class LocalHandler {
    const config: Configuration
    const requests: Requests
    const output: Sink

    /** `newLocalHandler` */
    constructor (config: Configuration, output: Sink)
      ensures this.config == config && this.output == output
      ensures fresh(requests) && requests.requests == []
    {
      this.config := config;
      this.output := output;
      requests := new Requests();
    }

    /** `Handle`: the CORS flag and auth of the configuration, this handler's history and output */
    method Handle(r: Incoming, inner: InnerResponse, initialStatus: int, elapsed: Duration, w: ResponseWriter)
      returns (outcome: Outcome)
      modifies w, requests, output
      ensures outcome == Served <==> Gate(config.auth, r.credentials) == Granted
      ensures outcome == Unauthorized <==> Gate(config.auth, r.credentials) == Rejected
      ensures outcome == Aborted <==> Gate(config.auth, r.credentials) == Panicked
      ensures outcome == Served ==>
        && w.header == ServedHeader(config.cors, old(w.header), inner)
        && w.status == StatusAfter(old(w.status), inner.status)
        && w.body == old(w.body) + inner.body
      ensures outcome == Unauthorized ==>
        && w.header == RejectedHeader(old(w.header))
        && w.status == StatusAfter(old(w.status), Some(401))
        && w.body == old(w.body) + "Unauthorized\n"
      ensures outcome == Aborted ==> w.header == old(w.header) && w.status == old(w.status) && w.body == old(w.body)
      ensures outcome == Served ==>
        && requests.requests == old(requests.requests) + [MakeRecord(r, w.header, LoggedStatus(inner, initialStatus), elapsed)]
        && output.written == old(output.written) + [MakeRecord(r, w.header, LoggedStatus(inner, initialStatus), elapsed)]
      ensures outcome != Served ==> requests.requests == old(requests.requests) && output.written == old(output.written)
    {
      outcome := HandleLocal(config.cors, config.auth, r, inner, initialStatus, elapsed, w, requests, output);
    }
  }

  class ProxyHandler {
    const config: Configuration
    const requests: Requests
    const output: Sink

    /** `newProxyHandler` */
    constructor (config: Configuration, output: Sink)
      ensures this.config == config && this.output == output
      ensures fresh(requests) && requests.requests == []
    {
      this.config := config;
      this.output := output;
      requests := new Requests();
    }

    /** `Handle`: forwards to the configured local port */
    method Handle(r: Incoming, requestValid: bool, client: ClientOutcome, initialStatus: int, elapsed: Duration, w: ResponseWriter)
      returns (outcome: ProxyOutcome, outbound: Option<Outbound>)
      modifies w, requests, output
      ensures outcome == CreateFailed <==> !requestValid
      ensures requestValid ==> outbound == Some(Outbound(r.verb, ProxyUrl(config.port, r.path), r.body))
      ensures !requestValid ==> outbound == None
      ensures outcome == ClientFailed <==> requestValid && !client.Responded?
      ensures outcome == CopyFailed <==> requestValid && client.Responded? && client.copyFailed
      ensures outcome == Proxied <==> requestValid && client.Responded? && !client.copyFailed
      ensures !requestValid || client == OtherClientError ==>
        w.header == old(w.header) && w.status == old(w.status) && w.body == old(w.body)
      ensures requestValid && client == Refused ==>
        && w.header == old(w.header)
        && w.status == StatusAfter(old(w.status), None)
        && w.body == old(w.body) + RefusedMessage(ServantPrefix, config.port)
      ensures requestValid && client.Responded? ==>
        && w.header == Merged(old(w.header), client.header)
        && w.status == StatusAfter(old(w.status), Some(client.status))
        && w.body == old(w.body) + client.copied
      ensures outcome == Proxied ==>
        && requests.requests == old(requests.requests) + [MakeRecord(r, w.header, initialStatus, elapsed)]
        && output.written == old(output.written) + [MakeRecord(r, w.header, initialStatus, elapsed)]
      ensures outcome != Proxied ==> requests.requests == old(requests.requests) && output.written == old(output.written)
    {
      outcome, outbound := HandleProxy(config.port, r, requestValid, client, initialStatus, elapsed, w, requests, output);
    }
  }
}
