# servant / serve — a verified model of the serving core

This project models the deterministic core of the `servant` command-line file server
(earlier called `serve`) in Dafny. Both generations of the code are modelled:

- the **serve** generation: `internal/local`, `internal/remote`, `internal/manager`,
  `internal/styles` and `internal/styles.go`;
- the **servant** generation: `internal/server`, together with `internal/tui/styles.go` and
  `internal/buildInfo.go`.

The model covers what a configuration turns into:

- the addresses a server announces;
- the TLS material it serves with;
- the output it chooses;
- the browser URL it launches;
- what happens to every HTTP request. A request goes through the Basic-Auth gate, the CORS
  headers and the static file handler, or through the proxy to a local port. A request that
  is served, or fully proxied, leaves exactly one record in the request history and in the
  output sink; the old remote proxy keeps no history and records into the output sink only.

It also models the texts the outputs show: the log line, the serving line, the TUI title
and description, and the content-length text.

Go semantics the core relies on are written out in `GoText`:

- `strconv.Itoa`;
- `strconv.ParseInt(s, 10, 64)`, with its syntax errors, its range errors that clamp the
  result, and the order in which they are detected;
- `uint64(int64)` wrap-around;
- `strings.Split` and `strings.Join`.

Go's `http.Header` and `ResponseWriter` are in `Http`.

Modules follow the source:

- `Config`: the configuration records.
- `Resolve`: `resolveConfig` / `resolveServerConfiguration`.
- `BasicAuth`: `handleBasicAuth`.
- `History`: `Requests` / `RequestManager`.
- `Styles`: `GetStyle`, with Go's integer division, which truncates toward zero.
- `BuildInfo`.
- `Output`: the log and TUI outputs.
- `Pipeline`: the local request pipeline.
- `Proxy`: both proxies.
- `ServantLocal`: the servant generation's `local` transport.
- `Servant`: `New`, `Start` and `start`.
- `Handlers`: `localHandler` and `proxyHandler`.
- `ServeLocal` and `ServeRemote`: the serve generation's two servers.

State the Go code mutates is modelled by classes with `modifies` clauses:

- the history;
- the response writer;
- the output sinks;
- the transports;
- the old servers.

Everything computed by expressions is a function.

Inputs from outside the model are parameters. These include:

- the outcome of a listen or a tunnel;
- the machine's outward IP;
- the generated certificate pair;
- what the file handler writes;
- what the HTTP client reports;
- the elapsed time;
- the build information.

Behaviour where the two generations differ is modelled per generation, and some of it is
proved:

- Only the servant generation has the expose branch of `resolveConfig`, where the local TCP
  listener's own address (`Addr().String()`) is the only host (internal/server/local.go:63-64).
  Its `New` switches an exposed local configuration to the remote transport
  (internal/server/server.go:85-87), so that branch is never reached through `New`.
- The servant generation launches the browser at the first address, which is loopback for an
  empty host. The serve generation launches it at the last host, which is the outward IP.
  `ServeLocal.LaunchTargetsDiffer` proves that these differ unless the outward IP is
  127.0.0.1.
- The refusal message starts with "SERVANT" in the new proxy and with "SERVE" in the old one.
- The old remote server keeps no history and treats every tunnel error as fatal. The new
  `New` is fatal only on a `*net.OpError`.

The configured credential string is split on **every** ":", not once, so for "a:b:c" the
password is "b" (internal/server/handler.go:62, `BasicAuth.SplitOnEveryColon`).

The record status of a proxied request is the logging writer's initial value, because the
proxy writes the backend status to the underlying writer and not to the logging writer. The
logging writer is not part of this model, so that initial value is the parameter
`initialStatus`.

The servant generation's `New` (internal/server/server.go:69-76) calls
`manager.NewLogOutput()` and `manager.NewTuiOutput()` with no argument, but
internal/manager/output.go has no `Init` and its `NewTuiOutput` takes a `*tui.Model`, so
those calls match the serve generation's manager only in name. The outputs the servant
generation's handlers and `Init` use are the `Output` interface of
internal/server/output.go, which has `Init` and a no-argument `NewTuiOutput`. The model
therefore uses internal/server/output.go for the servant generation's sinks, and
internal/manager/output.go only for the serve generation's TUI title and content-length text.

## Model

| member | source | states |
|---|---|---|
| GoText.ToUint64 | internal/server/handler.go:147 | `uint64(x)` agrees with `x` modulo 2^64 and is `x` for non-negative `x` |
| GoText.NatToString | internal/server/output.go:87 | decimal rendering is a non-empty digit string without leading zeros |
| GoText.IntToString | internal/tui/styles.go:25 | `strconv.Itoa`: a minus sign before the digits of the magnitude for negatives, the plain digits otherwise |
| GoText.NatToStringRoundTrip | internal/tui/styles.go:25 | reading the rendered digits back gives the number |
| GoText.NatToStringInjective | internal/tui/styles.go:25 | different naturals render differently |
| GoText.IntToStringChars | internal/tui/styles.go:25 | a rendered integer holds only digits and '-' |
| GoText.IntToStringInjective | internal/server/handler.go:104 | different 64-bit integers render differently |
| GoText.ParseInt64 | internal/server/handler.go:146 | `ParseInt` of the empty Content-Length header is 0 with an error |
| GoText.ScanDigits | internal/server/handler.go:146 | a digit string whose value fits 64 bits scans to its value |
| GoText.ScanDigitsOverflow | internal/server/handler.go:146 | a digit string beyond 2^64-1 is a range error |
| GoText.ScanNonDigit | internal/server/handler.go:146 | a non-digit met before overflow is a syntax error |
| GoText.ParseIntOfIntToString | internal/server/handler.go:145-146 | `ParseInt(Itoa(n)) == (n, nil)` for every 64-bit n |
| GoText.ParseIntClampsHigh | internal/server/handler.go:146 | a value above MaxInt64 is clamped to MaxInt64 with an error |
| GoText.ParseIntClampsLow | internal/server/handler.go:146 | a negative value below MinInt64 is clamped to MinInt64 with an error |
| GoText.ParseIntSyntaxError | internal/server/handler.go:146 | a non-digit before overflow gives 0 with an error, whatever follows |
| GoText.Count | internal/server/handler.go:62 | the count is 0 exactly when the character is absent |
| GoText.Split | internal/server/handler.go:62 | `strings.Split` gives one piece more than there are separators, and no piece contains the separator |
| GoText.JoinSplit | internal/server/handler.go:62 | joining the pieces of a split with the separator gives back the string |
| GoText.SplitJoin | internal/server/output.go:68 | splitting a join of separator-free pieces gives back the pieces |
| GoText.SplitWithoutSeparator | internal/server/handler.go:62 | a string without the separator splits into itself alone |
| GoText.NotInJoin | internal/server/output.go:68 | a character absent from the pieces and the separator is absent from their join |
| BasicAuth.Expected | internal/server/handler.go:62 | the configured string is cut at every ':' into one piece more than it has colons; no piece holds a ':', and joining them with ':' gives the string back |
| BasicAuth.Decide | internal/server/handler.go:58-81 | granted exactly when credentials were sent and equal segments 0 and 1 of the ':'-split configuration; a panic exactly when credentials were sent and the configuration has no ':'; no credentials are refused |
| BasicAuth.ExactPairGranted | internal/local/server.go:261-284 | with "user:pass" only exactly that pair passes, and the gate never panics |
| BasicAuth.SplitOnEveryColon | internal/server/handler.go:62 | "a:b:c" accepts password "b" and refuses "b:c" |
| Config.TLSRequest.WantsTLS | internal/server/server.go:45-47 | auto-TLS always wants TLS; without it, TLS is wanted exactly when both files are named |
| Config.WantsTLSCases | internal/server/server.go:41-47 | auto-TLS is wanted exactly when the flag is set; TLS under auto-TLS or with both files named; one file alone is not TLS |
| Resolve.ResolvedPort | internal/server/local.go:58-61 | the configured port, or the listener's when the configured port is 0 |
| Resolve.PlainHosts | internal/server/local.go:65-71 | two hosts for an empty host and one otherwise; every host ends in ":" and the port; the last host is the outward IP or the configured host |
| Resolve.ServantHosts | internal/server/local.go:57-71 | expose announces only the listener's address; otherwise one or two hosts, each carrying the resolved port |
| Resolve.ServeHosts | internal/local/server.go:182-194 | one or two hosts, each carrying the resolved port |
| Resolve.Schema | internal/server/local.go:73-75 | "https" exactly when TLS is wanted, "http" otherwise |
| Resolve.CertificateFor | internal/server/local.go:72-83 | no files without TLS; the generated pair under auto-TLS; otherwise the configured files, both non-empty |
| Resolve.ServantValues | internal/server/local.go:57-92 | the servant hosts, "https" exactly when TLS is wanted, and an empty certificate with "http" exactly when neither TLS nor auto-TLS is on |
| Resolve.ServeValues | internal/local/server.go:182-215 | the serve hosts, "https" exactly when TLS is wanted, and an empty certificate with "http" exactly when neither TLS nor auto-TLS is on |
| Resolve.StartMode | internal/server/local.go:50-54 | TLS serving exactly when TLS is wanted, with the resolved certificate and key |
| Resolve.Urls | internal/server/local.go:94-100 | one address per host, in order |
| Resolve.ServantHostRules | internal/server/local.go:57-71 | the resolved port is the listener's exactly for port 0; expose announces only the listener address; an empty host gives loopback then outward IP; otherwise the host |
| Resolve.GenerationsAgree | internal/local/server.go:182-215 | without expose, both generations resolve the same hosts, schema and certificate |
| Resolve.NotEndsWithColonZero | internal/server/local.go:58-61 | an address with a non-zero port never ends in ":0" |
| Resolve.HostPortSuffix | internal/server/local.go:67-70 | every host:port ends with ":" and the port |
| Resolve.HostsCarryResolvedPort | internal/local/server.go:183-194 | every resolved host carries the resolved port, never ":0" for a non-zero port |
| Resolve.EphemeralPortShown | internal/server/local.go:58-70 | with port 0 the listener's real port is announced |
| Resolve.OneFileIsPlain | internal/local/server.go:195-206 | a certificate without a key (or a key without a certificate) is served plain |
| History.FirstIndex | internal/server/request.go:35-42 | the position of the first record with the URL, or none exactly when no record has it |
| History.FirstMatch | internal/server/request.go:35-42 | none exactly when no record has the URL; otherwise a record with the URL before which no record has it |
| History.AddKeepsFirstMatch | internal/server/request.go:31-33 | appending keeps the first match of a URL already present |
| History.AddFirstOfUrl | internal/manager/request.go:28-30 | the first record of a new URL becomes its match |
| History.AddOtherUrl | internal/manager/request.go:28-39 | appending leaves the match of every other URL alone |
| History.Requests.constructor | internal/server/request.go:27-29 | a new history is empty |
| History.Requests.Add | internal/manager/request.go:28-30 | the record is appended; earlier records are unchanged |
| History.Requests.Find | internal/manager/request.go:32-39 | the earliest record with the URL, none exactly when no record has it |
| Styles.GoDiv | internal/tui/styles.go:26 | Go's `/`: the quotient is rounded toward zero, so it has the dividend's sign and the remainder is less than the divisor |
| Styles.GetStyle | internal/tui/styles.go:24-36 | the text is `Itoa` of the code; 2xx, 4xx and 5xx get their families exactly for their ranges, everything else the default |
| Styles.TestedCases | internal/styles_test.go:9-48 | 200, 404, 500, 301 and 101 give the families and texts the tests expect |
| Styles.NegativeCodesDefault | internal/styles/styles.go:24-36 | negative codes take the default style |
| BuildInfo.BuildInfo.GetShortCommit | internal/buildInfo.go:11-16 | at most seven characters, a prefix of the commit |
| BuildInfo.ShortCommitOfLongHash | internal/buildInfo.go:12-13 | a long commit is cut to its first seven characters |
| BuildInfo.Globals.constructor | internal/buildInfo.go:18 | the global build information starts out nil |
| BuildInfo.Globals.SetBuildInfo | internal/buildInfo.go:20-25 | the global build information holds the given version and commit |
| Output.GetContentLength | internal/server/output.go:85-90 | empty exactly for 0, else "(N bytes)" |
| Output.ContentLengthTextRoundTrip | internal/manager/output.go:58-63 | the byte count can be read back from the text |
| Output.LogLine | internal/server/output.go:30-41 | three pieces, only the middle one coloured, with the status style; the line starts with the remote address |
| Output.LogLineFields | internal/server/output.go:30-41 | cut at its tabs, the log line gives back remote address, duration, status, method and "URL length" |
| Output.ServingLine | internal/server/output.go:43-46 | "Serving ", the location, " at ", then the addresses joined with ", " |
| Output.Sink.constructor | internal/server/output.go:26-54 | a new log or TUI output of the chosen kind has announced nothing and received no record |
| Output.ServantTuiInfo | internal/server/output.go:67-75 | the banner starts with "servant " and ends with the serving line |
| Output.ServeTuiInfo | internal/local/server.go:125-128 | the banner starts with "serve " and ends with the serving line it wraps |
| Output.ServantTuiTitle | internal/server/output.go:59-60 | a plain piece and a secondary piece that read "method URL from remote at clock" |
| Output.ServeTuiTitle | internal/manager/output.go:50-51 | a plain piece followed by a secondary piece |
| Output.TuiDescription | internal/server/output.go:62-63 | three pieces: the status style (the only coloured piece), the duration, then a secondary piece |
| Output.InitText | internal/server/output.go:43-75 | the log output starts with "Serving ", the TUI banner with "servant ", and both end with the serving line |
| Output.ServingLineSingle | internal/server/output.go:43-46 | one address is shown alone |
| Output.ServingLinePair | internal/server/output.go:43-46 | two addresses are shown in order, separated by ", " |
| Output.TuiDescriptionStart | internal/server/output.go:62-63 | the TUI description starts with the status and the duration |
| Output.ServeTuiTitleText | internal/manager/output.go:50-51 | the serve generation's title reads "method URL from remote" |
| Output.Sink.Init | internal/server/output.go:43-46 | the sink announces the serving line (log) or the versioned banner (TUI) |
| Output.Sink.Announce | internal/local/server.go:123-130 | the serve generation's TUI model gets its banner |
| Output.Sink.Write | internal/server/output.go:56-65 | the record is appended to what the sink received |
| Pipeline.Gate | internal/server/handler.go:51-55 | without auth every request passes; with auth the Basic-Auth decision applies |
| Pipeline.ContentLengthOf | internal/server/handler.go:145-147 | the parsed header, wrapped to 64 bits unsigned |
| Pipeline.MissingContentLength | internal/server/handler.go:145-147 | a missing header records length 0 |
| Pipeline.ContentLengthRoundTrip | internal/local/server.go:236-238 | a decimal header is recorded exactly |
| Pipeline.MinusOneWraps | internal/remote/server.go:133-135 | "-1" is recorded as 2^64-1 |
| Pipeline.JunkLengthIsZero | internal/server/handler.go:146 | a header starting with a non-digit is recorded as 0 |
| Pipeline.HugeLengthClamps | internal/server/handler.go:146 | a header beyond the signed range is recorded as MaxInt64 |
| Pipeline.MakeRecord | internal/server/handler.go:149-158 | the record carries the request's address, URI and method, the logged status, the duration, and the response's content type and parsed length |
| Pipeline.ServedHeader | internal/server/handler.go:43-47 | the file handler's headers win; the CORS pair is "*" when enabled and not overridden; every other key is unchanged |
| Pipeline.RejectedHeader | internal/server/handler.go:77-79 | a refusal carries the Basic challenge, a plain-text content type and "nosniff"; other keys are unchanged |
| Pipeline.StatusAfter | internal/server/handler.go:47 | a status once written stays; otherwise the handler's explicit status, or 200 when it wrote none |
| Pipeline.LoggedStatus | internal/local/server.go:244 | the handler's explicit status, else the logging writer's initial status |
| Pipeline.HandleLocal | internal/server/handler.go:39-81 | served exactly when the gate grants, with the CORS and file headers, status and body, and one record in history and sink; refused with 401 and no record; a panic changes nothing |
| Proxy.ProxyUrl | internal/server/handler.go:104 | the backend URL is "http://localhost:" followed by the port and the path |
| Proxy.ProxyUrlInjective | internal/remote/server.go:104 | different ports or paths give different backend URLs |
| Proxy.RefusedMessage | internal/server/handler.go:113-116 | the generation's name, then the fixed text with the port |
| Proxy.RefusedMessagesDiffer | internal/remote/server.go:114 | the two generations' messages differ only in the first word |
| Proxy.Merged | internal/server/handler.go:119-123 | under every key, the response's values followed by the backend's, and keys appear only with a value |
| Proxy.MergedEmpty | internal/remote/server.go:119-123 | copying an empty backend header changes nothing |
| Proxy.MergedIntoEmpty | internal/remote/server.go:119-123 | into an empty response the copy is the backend header |
| Proxy.AddValues | internal/server/handler.go:120-122 | the values go in order under their key; other keys are unchanged |
| Proxy.CopyHeaders | internal/server/handler.go:119-123 | whatever order the keys are visited in, the result is `Merged` |
| Proxy.Forward | internal/server/handler.go:99-130 | no request built means nothing written; a refusal writes the message; another client error writes nothing; a response gets its headers, status and body copied |
| Proxy.HandleProxy | internal/server/handler.go:99-133 | forwarding with "SERVANT", with the writer's new header, status and body in every outcome; only a fully copied response leaves one record in history and sink |
| Proxy.HandleRemote | internal/remote/server.go:99-148 | forwarding with "SERVE", with the writer's new header, status and body in every outcome; only a fully copied response leaves a record, for the sink only |
| Proxy.RemoteServingLine | internal/remote/server.go:74 | "Serving port ", the port, " at " and the tunnel address at the end |
| Proxy.RemoteServingLinePort | internal/remote/server.go:74 | the port reads back from the line: the text up to the next space parses to it, followed by " at " and the address |
| ServantLocal.Local.constructor | internal/server/local.go:30-34 | nothing is resolved yet |
| ServantLocal.Local.ResolveConfig | internal/server/local.go:57-92 | the values are the servant resolution of configuration and listener |
| ServantLocal.Local.Addresses | internal/server/local.go:94-100 | one URL per resolved host, in order |
| ServantLocal.Local.Init | internal/server/local.go:36-43 | listens on host:port; panics exactly when the listen failed and the port is 0 or exposed; otherwise resolves even after a failed listen and returns listener, addresses and error |
| ServantLocal.Local.Start | internal/server/local.go:45-55 | TLS serving exactly when TLS is wanted, with the resolved pair |
| Servant.OutputKindFor | internal/server/server.go:69-76 | log output exactly when the TUI is disabled |
| Servant.TransportFor | internal/server/server.go:81-91 | the local transport exactly for the local type without expose |
| Servant.HandlerFor | internal/server/server.go:81-91 | the file handler exactly for the local type, the proxy otherwise |
| Servant.RemoteInit | internal/server/remote.go:23-33 | the tunnel address as the only address, or the error with no addresses |
| Servant.LocalAddresses | internal/server/local.go:94-100 | one address per servant host, in order, each the schema, "://" and the host; under expose only the listener's address |
| Servant.New | internal/server/server.go:68-109 | the panic, fatal and constructed cases, and per transport the listener, addresses, serve mode and announcement |
| Servant.PlanStart | internal/server/server.go:111-140 | a panic exactly without a listener or without addresses; a launch at the first address exactly when asked |
| Servant.ServantAddressOrder | internal/server/local.go:65-68 | an empty host announces loopback first, then the outward IP |
| Servant.ServantLaunchesLoopback | internal/server/server.go:126-129 | the servant generation launches the loopback URL |
| Handlers.LocalHandler.constructor | internal/server/handler.go:31-37 | the handler keeps the configuration and the shared output, and owns a fresh, empty history |
| Handlers.LocalHandler.Handle | internal/server/handler.go:39-81 | the local pipeline with the handler's CORS flag, auth, history and output: served, refused or aborted exactly as the gate decides, with the writer's new header, status and body in each case |
| Handlers.ProxyHandler.constructor | internal/server/handler.go:88-97 | the handler keeps the configuration and the shared output, and owns a fresh, empty history |
| Handlers.ProxyHandler.Handle | internal/server/handler.go:99-133 | the proxy to the configured port with the handler's history and output: the outbound request, each outcome exactly when it occurs, and the writer's new header, status and body |
| ServeLocal.DefaultUrl | internal/local/server.go:64-66 | the URL of the last host |
| ServeLocal.Server.constructor | internal/local/server.go:75-80 | an empty history, nothing resolved, no output |
| ServeLocal.Server.ResolveServerConfiguration | internal/local/server.go:182-215 | the values are the serve resolution |
| ServeLocal.Server.GetListenersValue | internal/local/server.go:217-223 | the listener URLs joined with ", " |
| ServeLocal.Server.Start | internal/local/server.go:82-169 | a fatal `*net.OpError`; a panic without a listener on port 0; otherwise the serving line, the output choice, a launch at the default URL exactly when asked, and the serve mode |
| ServeLocal.Server.HandleRequest | internal/local/server.go:225-259 | the local pipeline with the server's CORS flag, auth, history and output: served, refused or aborted exactly as the gate decides, with the writer's new header, status and body in each case |
| ServeLocal.ServeLaunchesOutwardIP | internal/local/server.go:188-191 | with an empty host the default URL is the outward IP |
| ServeLocal.LaunchTargetsDiffer | internal/local/server.go:148-155 | the generations launch different URLs unless the outward IP is loopback |
| ServeRemote.Server.constructor | internal/remote/server.go:34-39 | the configuration is kept and there is no output yet |
| ServeRemote.Server.Start | internal/remote/server.go:41-86 | every tunnel error is fatal; otherwise the serving line and a log output |
| ServeRemote.Server.HandleRequest | internal/remote/server.go:99-148 | the old proxy to the configured port: the outbound request, each outcome exactly when it occurs, the writer's new header, status and body, and a record into the output only |

## Left out

- Listening, tunnels, TLS serving, signals, graceful shutdown and goroutines are left out, because they are I/O and concurrency. Listen and tunnel outcomes are inputs.
- `network.GenerateAutoTLS` is left out because it is randomness and file I/O. The generated pair is an input.
- `network.LocalIP` is left out because it is an OS query. The outward IP is an input, and its lookup error is ignored as in the source.
- The network helper package, including `NewLoggingResponseWriter`, is not part of this model. Its initial status is the input `initialStatus`.
- `http.FileServer` and `http.DefaultClient` are left out because they are foreign code. What they write or report is an input.
- Whether `http.NewRequest` accepts the method and URL is the input `requestValid`.
- A copy failure is an input. The bytes copied before it are taken as written.
- `net/http` writes the explicit 200 internally; it is modelled through `ResponseWriter.Write`.
- Header-key canonicalisation is left out, because every key the core uses is already canonical.
- `http.Error` may also delete a Content-Length header. That header cannot be present on the rejection path, so this is left out.
- Duration rendering (`%v` of `time.Duration`) is left out. Durations are opaque values, and their text is passed to the rendering functions.
- The wall clock of the TUI title is an input text.
- lipgloss colours and the TUI program (bubbletea model, list widget, key handling) are left out because they are presentation only. A styled piece is kept as a piece of its own.
- `log.Info`, `log.Debug` and `log.Warn` output is left out, except the serving lines, which are modelled as texts.
- The request body reference (`Body`) of the record is left out. Records are compared by value. The proxied request carries the incoming body as a text (`Outbound.body`); streaming it is I/O.
- Browser launching and the update check are left out because they are foreign calls. The model only computes the URL that would be launched.
- The cobra commands and flag parsing are not part of this model.
- BasicAuth.Decide models SHA-256 as an injective digest and `ConstantTimeCompare` as equality, so timing behaviour is not captured.
- ServeLocal.Server.HandleRequest and ServeRemote.Server.HandleRequest require the output to be set. The source guarantees this at its only call site: `start` assigns the output (internal/local/server.go:130 or 141, internal/remote/server.go:78) before it starts serving (internal/local/server.go:159-161, internal/remote/server.go:80).
- Strings are sequences of characters. Only ASCII behaviour is captured: Go's byte-indexed slicing, as in `GetShortCommit` (internal/buildInfo.go:12-13), is modelled as character slicing, so a commit text with multi-byte characters is cut differently.
