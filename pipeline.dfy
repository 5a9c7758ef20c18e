/**
 * The local request pipeline, shared by both generations (`localHandler.Handle` with
 * `logRequest`, and the serve generation's `handleRequest`): the optional basic-auth gate,
 * the CORS headers, the static file handler, then one record for the history and the
 * output sink.  The file handler itself is not modelled: what it does to the writer
 * (headers set, status, body) is a parameter.
 */
module Pipeline {
  import opened Base
  import opened GoText
  import opened Http
  import opened BasicAuth
  import opened History
  import opened Output

  const AccessControlAllowOrigin := "Access-Control-Allow-Origin"
  const AccessControlAllowMethods := "Access-Control-Allow-Methods"
  const ContentType := "Content-Type"
  const ContentLength := "Content-Length"
  const WwwAuthenticate := "WWW-Authenticate"
  const Realm := "Basic realm=\"restricted\", charset=\"UTF-8\""
  /** Headers `http.Error` sets before its status line */
  const XContentTypeOptions := "X-Content-Type-Options"
  const ErrorContentType := "text/plain; charset=utf-8"

  /** What the handler reads from `*http.Request` */
  datatype Incoming = Incoming(
    remoteAddr: string,
    requestURI: string,
    verb: string,
    path: string,
    body: string,
    credentials: Option<Credentials>)

  /** What the wrapped file handler does to the writer: headers it sets, the status it writes (if any), its body */
  datatype InnerResponse = InnerResponse(headers: Header, status: Option<int>, body: string)

  datatype Outcome = Served | Unauthorized | Aborted

  /** The gate: no auth configured lets everything through, else `handleBasicAuth` decides */
  function Gate(auth: string, credentials: Option<Credentials>): (r: AuthOutcome)
    ensures auth == "" ==> r == Granted
    ensures auth != "" ==> r == Decide(auth, credentials)
  {
    if auth == "" then Granted else Decide(auth, credentials)
  }

  /** The content length of the record: the header through `ParseInt` (errors dropped), then `uint64(...)` */
  function ContentLengthOf(h: Header): (n: uint64)
    ensures ParseInt64(Get(h, ContentLength)).value >= 0 ==> n == ParseInt64(Get(h, ContentLength)).value
    ensures ParseInt64(Get(h, ContentLength)).value < 0 ==> n == ParseInt64(Get(h, ContentLength)).value + Two64
  {
    ToUint64(ParseInt64(Get(h, ContentLength)).value)
  }

  lemma MissingContentLength(h: Header)
    requires ContentLength !in h
    ensures ContentLengthOf(h) == 0
  {
  }

  /** A length written by `strconv.Itoa` is read back exactly */
  lemma ContentLengthRoundTrip(h: Header, n: nat)
    requires n <= MaxInt64 && Get(h, ContentLength) == NatToString(n)
    ensures ContentLengthOf(h) == n
  {
    ParseIntOfIntToString(n);
  }

  /** A negative length wraps: "-1" becomes the largest 64-bit unsigned value */
  lemma MinusOneWraps(h: Header)
    requires Get(h, ContentLength) == "-1"
    ensures ContentLengthOf(h) == MaxUint64
  {
    assert NatToString(1) == "1";
    assert IntToString(-1) == "-" + NatToString(1);
    ParseIntOfIntToString(-1);
  }

  /** A length that does not start with a digit (after an optional sign) is recorded as 0 */
  lemma JunkLengthIsZero(h: Header)
    requires var s := Unsigned(Get(h, ContentLength)); s != [] && !IsDigit(s[0])
    ensures ContentLengthOf(h) == 0
  {
    var s := Get(h, ContentLength);
    assert Unsigned(s)[..0] == [];
    ParseIntSyntaxError(s, 0);
  }

  /** A length beyond the signed range is clamped to MaxInt64 */
  lemma HugeLengthClamps(h: Header)
    requires var s := Get(h, ContentLength); s != [] && AllDigits(s) && DecimalValue(s) > MaxInt64
    ensures ContentLengthOf(h) == MaxInt64
  {
    ParseIntClampsHigh(Get(h, ContentLength));
  }

  /** The record `logRequest` builds from the request, the writer's headers and the logging writer's status */
  function MakeRecord(r: Incoming, h: Header, status: int, elapsed: Duration): (rec: Request)
    ensures rec.remoteAddress == r.remoteAddr && rec.url == r.requestURI && rec.verb == r.verb
    ensures rec.status == status && rec.time == elapsed
    ensures rec.contentType == Get(h, ContentType) && rec.contentLength == ContentLengthOf(h)
  {
    Request(r.remoteAddr, r.requestURI, r.verb, status, elapsed, Get(h, ContentType), ContentLengthOf(h))
  }

  /** The headers a served response goes out with: the CORS pair when enabled, then whatever the file handler set */
  function ServedHeader(cors: bool, before: Header, inner: InnerResponse): (h: Header)
    ensures forall k :: k in inner.headers ==> k in h && h[k] == inner.headers[k]
    ensures cors && AccessControlAllowOrigin !in inner.headers ==> Values(h, AccessControlAllowOrigin) == ["*"]
    ensures cors && AccessControlAllowMethods !in inner.headers ==> Values(h, AccessControlAllowMethods) == ["*"]
    ensures forall k :: k !in inner.headers && k != AccessControlAllowOrigin && k != AccessControlAllowMethods ==>
      Values(h, k) == Values(before, k)
    ensures !cors ==> forall k :: k !in inner.headers ==> Values(h, k) == Values(before, k)
  {
    var withCors := if cors then Set(Set(before, AccessControlAllowOrigin, "*"), AccessControlAllowMethods, "*") else before;
    withCors + inner.headers
  }

  /** The headers of a rejection: the challenge, then the two `http.Error` sets */
  function RejectedHeader(before: Header): (h: Header)
    ensures Values(h, WwwAuthenticate) == [Realm]
    ensures Values(h, ContentType) == [ErrorContentType]
    ensures Values(h, XContentTypeOptions) == ["nosniff"]
    ensures forall k :: k != WwwAuthenticate && k != ContentType && k != XContentTypeOptions ==>
      Values(h, k) == Values(before, k)
  {
    Set(Set(Set(before, WwwAuthenticate, Realm), ContentType, ErrorContentType), XContentTypeOptions, "nosniff")
  }

  /** The status line after the file handler: its own `WriteHeader`, else the implicit 200 of its `Write` */
  function StatusAfter(before: Option<int>, written: Option<int>): (s: Option<int>)
    ensures s.Some?
    ensures before.Some? ==> s == before
    ensures before.None? && written.Some? ==> s == written
    ensures before.None? && written.None? ==> s == Some(200)
  {
    if before.Some? then before else Some(written.GetOr(200))
  }

  /** The status the logging writer records: what the file handler passed to `WriteHeader`, else its initial value */
  function LoggedStatus(inner: InnerResponse, initialStatus: int): (s: int)
    ensures inner.status.Some? ==> s == inner.status.value
    ensures inner.status.None? ==> s == initialStatus
  {
    inner.status.GetOr(initialStatus)
  }

  /**
   * One request through the local pipeline.  On `Served` the writer carries the CORS and
   * file-handler headers, status and body, and the one record of the request has been
   * appended to both the history and the sink; on `Unauthorized` the writer carries the
   * challenge, 401 and "Unauthorized\n" and nothing is recorded; on `Aborted` (the
   * configured auth has no ':', so `handleBasicAuth` panics) nothing changes.
   */
  method HandleLocal(cors: bool, auth: string, r: Incoming, inner: InnerResponse, initialStatus: int,
                     elapsed: Duration, w: ResponseWriter, history: Requests, sink: Sink)
    returns (outcome: Outcome)
    modifies w, history, sink
    ensures outcome == Served <==> Gate(auth, r.credentials) == Granted
    ensures outcome == Unauthorized <==> Gate(auth, r.credentials) == Rejected
    ensures outcome == Aborted <==> Gate(auth, r.credentials) == Panicked
    ensures outcome == Served ==>
      && w.header == ServedHeader(cors, old(w.header), inner)
      && w.status == StatusAfter(old(w.status), inner.status)
      && w.body == old(w.body) + inner.body
      && history.requests == old(history.requests) + [MakeRecord(r, w.header, LoggedStatus(inner, initialStatus), elapsed)]
      && sink.written == old(sink.written) + [MakeRecord(r, w.header, LoggedStatus(inner, initialStatus), elapsed)]
    ensures outcome == Unauthorized ==>
      && w.header == RejectedHeader(old(w.header))
      && w.status == StatusAfter(old(w.status), Some(401))
      && w.body == old(w.body) + "Unauthorized\n"
      && history.requests == old(history.requests) && sink.written == old(sink.written)
    ensures outcome == Aborted ==>
      && w.header == old(w.header) && w.status == old(w.status) && w.body == old(w.body)
      && history.requests == old(history.requests) && sink.written == old(sink.written)
    ensures sink.announced == old(sink.announced)
  {
    var decision := Gate(auth, r.credentials);
    if decision == Panicked {
      return Aborted;
    }
    if decision == Rejected {
      w.SetHeader(WwwAuthenticate, Realm);
      w.SetHeader(ContentType, ErrorContentType);
      w.SetHeader(XContentTypeOptions, "nosniff");
      w.WriteHeader(401);
      w.Write("Unauthorized\n");
      return Unauthorized;
    }
    if cors {
      w.SetHeader(AccessControlAllowOrigin, "*");
      w.SetHeader(AccessControlAllowMethods, "*");
    }
    // the file handler, writing through the logging writer
    w.SetHeaders(inner.headers);
    if inner.status.Some? {
      w.WriteHeader(inner.status.value);
    }
    w.Write(inner.body);
    var record := MakeRecord(r, w.header, LoggedStatus(inner, initialStatus), elapsed);
    history.Add(record);
    sink.Write(record);
    return Served;
  }
}
