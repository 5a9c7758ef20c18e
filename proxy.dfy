/**
 * The remote proxy of both generations (`proxyHandler.Handle` in the servant generation,
 * the serve generation's remote `handleRequest`): the request is sent, with the same
 * method, to `http://localhost:<port><path>`; the backend's headers are added to the
 * response, its status written and its body copied.  A refused connection answers with a
 * fixed message; every other failure ends the handler with nothing written.  The HTTP
 * client itself is not modelled: what it reports is a parameter.
 */
module Proxy {
  import opened Base
  import opened GoText
  import opened Http
  import opened History
  import opened Output
  import opened Pipeline

  const LocalhostPrefix := "http://localhost:"
  const ServantPrefix := "SERVANT"
  const ServePrefix := "SERVE"

  /** The backend URL for a request path */
  function ProxyUrl(port: int, path: string): (url: string)
    ensures |LocalhostPrefix| < |url| && url[..|LocalhostPrefix|] == LocalhostPrefix
    ensures url[|LocalhostPrefix|..] == IntToString(port) + path
  {
    LocalhostPrefix + IntToString(port) + path
  }

  predicate IsPath(path: string) {
    path == [] || path[0] == '/'
  }

  /** Where the first `c` of `t` is, or its length when it has none */
  function FirstOf(t: string, c: char): (i: nat)
    ensures i <= |t|
    ensures c !in t[..i]
    ensures i < |t| ==> t[i] == c
    decreases |t|
  {
    if t == [] || t[0] == c then 0 else 1 + FirstOf(t[1..], c)
  }

  /** A text free of `c` followed by a text that is empty or starts with `c`: the first `c` is where the two meet */
  lemma {:induction false} DelimiterAfter(s: string, rest: string, c: char)
    requires c !in s && (rest == [] || rest[0] == c)
    ensures FirstOf(s + rest, c) == |s|
    decreases |s|
  {
    if s == [] {
      assert s + rest == rest;
    } else {
      assert (s + rest)[0] == s[0];
      assert (s + rest)[1..] == s[1..] + rest;
      DelimiterAfter(s[1..], rest, c);
    }
  }

  /** Different ports or different paths never give the same backend URL */
  lemma ProxyUrlInjective(p1: int64, a: string, p2: int64, b: string)
    requires IsPath(a) && IsPath(b)
    requires ProxyUrl(p1, a) == ProxyUrl(p2, b)
    ensures p1 == p2 && a == b
  {
    var s1, s2 := IntToString(p1), IntToString(p2);
    var rest := s1 + a;
    assert rest == ProxyUrl(p1, a)[|LocalhostPrefix|..];
    assert rest == s2 + b;
    IntToStringChars(p1);
    IntToStringChars(p2);
    assert '/' !in s1 && '/' !in s2;
    DelimiterAfter(s1, a, '/');
    DelimiterAfter(s2, b, '/');
    assert s1 == rest[..|s1|] == s2;
    IntToStringInjective(p1, p2);
    assert a == rest[|s1|..] == b;
  }

  /** What follows the first word of the refusal message */
  function RefusalText(port: int): string {
    ": Connection to local port " + IntToString(port) + " was refused, check that your server is up and running"
  }

  /** The body written when the backend refuses the connection: the generation's name, then the port */
  function RefusedMessage(prefix: string, port: int): (m: string)
    ensures |prefix| < |m| && m[..|prefix|] == prefix && m[|prefix|..] == RefusalText(port)
  {
    prefix + RefusalText(port)
  }

  /** The request the proxy sends: the incoming method, the backend URL and the incoming body */
  datatype Outbound = Outbound(verb: string, url: string, body: string)

  /** What the HTTP client reports for the outbound request */
  datatype ClientOutcome =
    | Refused                     // an error wrapping ECONNREFUSED
    | OtherClientError
    | Responded(status: int, header: Header, copied: string, copyFailed: bool)

  datatype ProxyOutcome = CreateFailed | ClientFailed | CopyFailed | Proxied

  /** The response header after every value of `src` has been added, in order, under its key */
  function Merged(dst: Header, src: Header): (h: Header)
    ensures forall k :: Values(h, k) == Values(dst, k) + Values(src, k)
    ensures forall k :: k in h <==> k in dst || (k in src && src[k] != [])
  {
    map k | k in dst.Keys + (set k | k in src && src[k] != []) :: Values(dst, k) + Values(src, k)
  }

  /** Two headers with the same keys and the same values under each key are the same */
  lemma HeaderExtensionality(g: Header, h: Header)
    requires forall k :: k in g <==> k in h
    requires forall k :: Values(g, k) == Values(h, k)
    ensures g == h
  {
    assert forall k :: k in g ==> g[k] == Values(g, k);
  }

  /** Copying from a backend that sent no header changes nothing */
  lemma MergedEmpty(dst: Header)
    ensures Merged(dst, map[]) == dst
  {
    HeaderExtensionality(Merged(dst, map[]), dst);
  }

  /** Into an empty response, the copy is the backend's header without its empty keys */
  lemma MergedIntoEmpty(src: Header)
    requires forall k :: k in src ==> src[k] != []
    ensures Merged(map[], src) == src
  {
    HeaderExtensionality(Merged(map[], src), src);
  }

  /** Adds the values `vs`, in order, under `k` */
  method AddValues(w: ResponseWriter, k: string, vs: seq<string>)
    modifies w
    ensures Values(w.header, k) == Values(old(w.header), k) + vs
    ensures forall key :: key != k ==> Values(w.header, key) == Values(old(w.header), key)
    ensures forall key :: key in w.header <==> key in old(w.header) || (key == k && vs != [])
    ensures w.status == old(w.status) && w.body == old(w.body)
  {
    for i := 0 to |vs|
      invariant Values(w.header, k) == Values(old(w.header), k) + vs[..i]
      invariant forall key :: key != k ==> Values(w.header, key) == Values(old(w.header), key)
      invariant forall key :: key in w.header <==> key in old(w.header) || (key == k && i > 0)
      invariant w.status == old(w.status) && w.body == old(w.body)
    {
      assert vs[..i + 1] == vs[..i] + [vs[i]];
      w.AddHeader(k, vs[i]);
    }
    assert vs[..|vs|] == vs;
  }

  /** After the keys in `done` have been copied from `src` into `h0`, the header is `h` */
  ghost predicate CopiedSoFar(h0: Header, h: Header, src: Header, done: set<string>)
    requires done <= src.Keys
  {
    && (forall key :: Values(h, key) == Values(h0, key) + (if key in done then src[key] else []))
    && (forall key :: key in h <==> key in h0 || (key in done && src[key] != []))
  }

  lemma CopyStep(h0: Header, before: Header, after: Header, src: Header, done: set<string>, k: string)
    requires done <= src.Keys && k in src && k !in done
    requires CopiedSoFar(h0, before, src, done)
    requires Values(after, k) == Values(before, k) + src[k]
    requires forall key :: key != k ==> Values(after, key) == Values(before, key)
    requires forall key :: key in after <==> key in before || (key == k && src[k] != [])
    ensures CopiedSoFar(h0, after, src, done + {k})
  {
    var done' := done + {k};
    forall key
      ensures Values(after, key) == Values(h0, key) + (if key in done' then src[key] else [])
    {
      if key == k {
        assert Values(before, k) == Values(h0, k) + [];
        assert Values(h0, k) + [] == Values(h0, k);
      }
    }
  }

  lemma CopyDone(h0: Header, h: Header, src: Header)
    requires CopiedSoFar(h0, h, src, src.Keys)
    ensures h == Merged(h0, src)
  {
    HeaderExtensionality(h, Merged(h0, src));
  }

  /** `for k, v := range src { for _, hv := range v { w.Header().Add(k, hv) } }`, keys in any order */
  method CopyHeaders(w: ResponseWriter, src: Header)
    modifies w
    ensures w.header == Merged(old(w.header), src)
    ensures w.status == old(w.status) && w.body == old(w.body)
  {
    var remaining := src.Keys;
    ghost var done: set<string> := {};
    ghost var h0 := w.header;
    while remaining != {}
      invariant remaining + done == src.Keys && remaining !! done
      invariant CopiedSoFar(h0, w.header, src, done)
      invariant w.status == old(w.status) && w.body == old(w.body)
      decreases |remaining|
    {
      var k :| k in remaining;
      ghost var before := w.header;
      AddValues(w, k, src[k]);
      CopyStep(h0, before, w.header, src, done, k);
      remaining := remaining - {k};
      done := done + {k};
    }
    CopyDone(h0, w.header, src);
  }

  /**
   * The forwarding both generations share, up to the record.  `requestValid` is whether
   * `http.NewRequest` accepts the method and URL; `outbound` is the request sent to the
   * backend, none when it could not be built.
   */
  method Forward(prefix: string, port: int, r: Incoming, requestValid: bool, client: ClientOutcome, w: ResponseWriter)
    returns (outcome: ProxyOutcome, outbound: Option<Outbound>)
    modifies w
    ensures outcome == CreateFailed <==> !requestValid
    ensures requestValid ==> outbound == Some(Outbound(r.verb, ProxyUrl(port, r.path), r.body))
    ensures !requestValid ==> outbound == None
    ensures outcome == ClientFailed <==> requestValid && !client.Responded?
    ensures outcome == CopyFailed <==> requestValid && client.Responded? && client.copyFailed
    ensures outcome == Proxied <==> requestValid && client.Responded? && !client.copyFailed
    ensures !requestValid || client == OtherClientError ==>
      w.header == old(w.header) && w.status == old(w.status) && w.body == old(w.body)
    ensures requestValid && client == Refused ==>
      && w.header == old(w.header)
      && w.status == StatusAfter(old(w.status), None)
      && w.body == old(w.body) + RefusedMessage(prefix, port)
    ensures requestValid && client.Responded? ==>
      && w.header == Merged(old(w.header), client.header)
      && w.status == StatusAfter(old(w.status), Some(client.status))
      && w.body == old(w.body) + client.copied
  {
    if !requestValid {
      return CreateFailed, None;
    }
    outbound := Some(Outbound(r.verb, ProxyUrl(port, r.path), r.body));
    match client {
      case Refused =>
        w.Write(RefusedMessage(prefix, port));
        return ClientFailed, outbound;
      case OtherClientError =>
        return ClientFailed, outbound;
      case Responded(status, header, copied, copyFailed) =>
        CopyHeaders(w, header);
        w.WriteHeader(status);
        w.Write(copied);
        outcome := if copyFailed then CopyFailed else Proxied;
    }
  }

  /**
   * The servant generation's proxy handler: forwarding with the "SERVANT" message, then,
   * when the body was copied, one record for the history and the sink.  The proxy writes
   * to the writer itself and never through the logging writer, so the record carries the
   * logging writer's initial status.
   */
  method HandleProxy(port: int, r: Incoming, requestValid: bool, client: ClientOutcome, initialStatus: int,
                     elapsed: Duration, w: ResponseWriter, history: Requests, sink: Sink)
    returns (outcome: ProxyOutcome, outbound: Option<Outbound>)
    modifies w, history, sink
    ensures outcome == CreateFailed <==> !requestValid
    ensures requestValid ==> outbound == Some(Outbound(r.verb, ProxyUrl(port, r.path), r.body))
    ensures !requestValid ==> outbound == None
    ensures outcome == ClientFailed <==> requestValid && !client.Responded?
    ensures outcome == CopyFailed <==> requestValid && client.Responded? && client.copyFailed
    ensures outcome == Proxied <==> requestValid && client.Responded? && !client.copyFailed
    ensures !requestValid || client == OtherClientError ==>
      w.header == old(w.header) && w.status == old(w.status) && w.body == old(w.body)
    ensures requestValid && client == Refused ==>
      && w.header == old(w.header)
      && w.status == StatusAfter(old(w.status), None)
      && w.body == old(w.body) + RefusedMessage(ServantPrefix, port)
    ensures requestValid && client.Responded? ==>
      && w.header == Merged(old(w.header), client.header)
      && w.status == StatusAfter(old(w.status), Some(client.status))
      && w.body == old(w.body) + client.copied
    ensures outcome == Proxied ==>
      && history.requests == old(history.requests) + [MakeRecord(r, w.header, initialStatus, elapsed)]
      && sink.written == old(sink.written) + [MakeRecord(r, w.header, initialStatus, elapsed)]
    ensures outcome != Proxied ==> history.requests == old(history.requests) && sink.written == old(sink.written)
    ensures sink.announced == old(sink.announced)
  {
    outcome, outbound := Forward(ServantPrefix, port, r, requestValid, client, w);
    if outcome == Proxied {
      var record := MakeRecord(r, w.header, initialStatus, elapsed);
      history.Add(record);
      sink.Write(record);
    }
  }

  /** The serve generation's remote handler: forwarding with the "SERVE" message; a copied body gives one record, for the sink only */
  method HandleRemote(port: int, r: Incoming, requestValid: bool, client: ClientOutcome, initialStatus: int,
                      elapsed: Duration, w: ResponseWriter, sink: Sink)
    returns (outcome: ProxyOutcome, outbound: Option<Outbound>)
    modifies w, sink
    ensures outcome == CreateFailed <==> !requestValid
    ensures requestValid ==> outbound == Some(Outbound(r.verb, ProxyUrl(port, r.path), r.body))
    ensures !requestValid ==> outbound == None
    ensures outcome == ClientFailed <==> requestValid && !client.Responded?
    ensures outcome == CopyFailed <==> requestValid && client.Responded? && client.copyFailed
    ensures outcome == Proxied <==> requestValid && client.Responded? && !client.copyFailed
    ensures !requestValid || client == OtherClientError ==>
      w.header == old(w.header) && w.status == old(w.status) && w.body == old(w.body)
    ensures requestValid && client == Refused ==>
      && w.header == old(w.header)
      && w.status == StatusAfter(old(w.status), None)
      && w.body == old(w.body) + RefusedMessage(ServePrefix, port)
    ensures requestValid && client.Responded? ==>
      && w.header == Merged(old(w.header), client.header)
      && w.status == StatusAfter(old(w.status), Some(client.status))
      && w.body == old(w.body) + client.copied
    ensures outcome == Proxied ==> sink.written == old(sink.written) + [MakeRecord(r, w.header, initialStatus, elapsed)]
    ensures outcome != Proxied ==> sink.written == old(sink.written)
    ensures sink.announced == old(sink.announced)
  {
    outcome, outbound := Forward(ServePrefix, port, r, requestValid, client, w);
    if outcome == Proxied {
      sink.Write(MakeRecord(r, w.header, initialStatus, elapsed));
    }
  }

  /** The serve generation's remote `start` line: "Serving port <port> at <tunnel address>" */
  function RemoteServingLine(port: int, address: string): (line: string)
    ensures |line| > 13 + |address| && line[..13] == "Serving port " && line[|line| - |address|..] == address
  {
    "Serving port " + IntToString(port) + " at " + address
  }

  /** The port reads back from the remote `start` line: the text up to the next space parses to it, and " at <address>" follows */
  lemma RemoteServingLinePort(port: int64, address: string)
    ensures var t := RemoteServingLine(port, address)[13..];
      var k := FirstOf(t, ' ');
      ParseInt64(t[..k]) == Parsed(port, true) && t[k..] == " at " + address
  {
    var digits := IntToString(port);
    var t := RemoteServingLine(port, address)[13..];
    assert t == digits + (" at " + address);
    IntToStringChars(port);
    DelimiterAfter(digits, " at " + address, ' ');
    assert t[..|digits|] == digits;
    ParseIntOfIntToString(port);
  }

  /** The two generations' refusal messages differ only in their first word */
  lemma RefusedMessagesDiffer(port: int)
    ensures RefusedMessage(ServantPrefix, port) != RefusedMessage(ServePrefix, port)
    ensures RefusedMessage(ServantPrefix, port)[|ServantPrefix|..] == RefusedMessage(ServePrefix, port)[|ServePrefix|..]
  {
    assert |RefusedMessage(ServantPrefix, port)| == |RefusedMessage(ServePrefix, port)| + 2;
  }
}
