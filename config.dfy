/**
 * The configuration records of both generations: `server.Configuration` (servant) and
 * `local.ServerRequest` / `remote.ServerRequest` (serve).  Both generations carry the
 * same TLS request and the same two TLS predicates, defined once on it.
 */
module Config {

  /** What the user asked for: a generated certificate, or a certificate and key on disk */
  datatype TLSRequest = TLSRequest(auto: bool, certFile: string, keyFile: string) {

    predicate WantsAutoTLS() {
      auto
    }

    /** TLS is wanted under auto-TLS, or when both files are named; one file alone is not enough */
    predicate WantsTLS(): (wants: bool)
      ensures WantsAutoTLS() ==> wants
      ensures !WantsAutoTLS() ==> (wants <==> certFile != "" && keyFile != "")
    {
      WantsAutoTLS() || (certFile != "" && keyFile != "")
    }
  }

  /** `server.Type` is a string; `New` only ever compares it with "local" */
  const TypeLocal: string := "local"
  const TypeRemote: string := "remote"

  /** `server.Configuration` of the servant generation */
  datatype Configuration = Configuration(
    kind: string,
    path: string,
    host: string,
    tls: TLSRequest,
    port: int,
    expose: bool,
    cors: bool,
    launch: bool,
    auth: string,
    disableTUI: bool)

  /** `local.ServerRequest` of the serve generation: no type and no expose flag; `tui` turns the TUI on */
  datatype ServeRequest = ServeRequest(
    path: string,
    host: string,
    tls: TLSRequest,
    port: int,
    cors: bool,
    launch: bool,
    auth: string,
    tui: bool)

  /** `remote.ServerRequest` of the serve generation: only the backend port */
  datatype RemoteRequest = RemoteRequest(port: int)

  /** The predicate both generations share, spelled out: either flag alone, or both files */
  lemma WantsTLSCases(t: TLSRequest)
    ensures t.WantsAutoTLS() <==> t.auto
    ensures t.WantsTLS() <==> t.auto || (t.certFile != "" && t.keyFile != "")
    ensures !t.auto && (t.certFile == "" || t.keyFile == "") ==> !t.WantsTLS()
  {
  }
}
