/**
 * How a local transport turns its configuration and its listener into the addresses it
 * announces and the TLS material it serves with (`resolveConfig` in the servant
 * generation, `resolveServerConfiguration` in the serve generation).  The listener's port
 * and address, the machine's outward IP and the generated certificate pair are inputs.
 */
module Resolve {
  import opened Base
  import opened GoText
  import opened Config

  datatype Certificate = Certificate(certFile: string, keyFile: string)

  /** `serverConfiguration`: the hosts (host:port), the URL schema and the certificate pair */
  datatype ServerValues = ServerValues(hosts: seq<string>, schema: string, certificate: Certificate)

  /** Go's zero value of `serverConfiguration`, held until resolution runs */
  const NoValues: ServerValues := ServerValues([], "", Certificate("", ""))

  /** A bound TCP listener: its port and `Addr().String()` */
  datatype Listener = Listener(port: nat, address: string)

  /** How `Start` serves: `ServeTLS` with a certificate pair, or plain `Serve` */
  datatype ServeMode = ServePlain | ServeTLS(certFile: string, keyFile: string)

  function HostPort(host: string, port: int): string {
    host + ":" + IntToString(port)
  }

  /** The port the addresses carry: the listener's when the configured port is 0 */
  function ResolvedPort(configured: int, listener: Option<Listener>): (p: int)
    requires configured == 0 ==> listener.Some?
    ensures configured != 0 ==> p == configured
    ensures configured == 0 ==> p == listener.value.port
    ensures configured == 0 ==> p >= 0
  {
    if configured == 0 then listener.value.port else configured
  }

  /** Hosts without tunnel exposure: loopback and outward IP for an empty host, else the host itself */
  function PlainHosts(host: string, port: int, localIP: string): (hosts: seq<string>)
    ensures |hosts| == if host == "" then 2 else 1
    ensures forall h :: h in hosts ==> EndsWith(h, ":" + IntToString(port))
    ensures hosts[|hosts| - 1] == HostPort(if host == "" then localIP else host, port)
  {
    HostPortSuffix("127.0.0.1", port);
    HostPortSuffix(localIP, port);
    HostPortSuffix(host, port);
    if host == "" then [HostPort("127.0.0.1", port), HostPort(localIP, port)]
    else [HostPort(host, port)]
  }

  /** Whether resolution dereferences the listener (a nil listener panics there) */
  predicate ServantNeedsListener(config: Configuration) {
    config.port == 0 || config.expose
  }

  /** The hosts of the servant generation's `resolveConfig` */
  function ServantHosts(config: Configuration, listener: Option<Listener>, localIP: string): (hosts: seq<string>)
    requires ServantNeedsListener(config) ==> listener.Some?
    ensures config.expose ==> hosts == [listener.value.address]
    ensures !config.expose ==> |hosts| == if config.host == "" then 2 else 1
    ensures !config.expose ==> forall h :: h in hosts ==> EndsWith(h, ":" + IntToString(ResolvedPort(config.port, listener)))
  {
    var port := ResolvedPort(config.port, listener);
    if config.expose then [listener.value.address] else PlainHosts(config.host, port, localIP)
  }

  /** The hosts of the serve generation's `resolveServerConfiguration` (no expose branch) */
  function ServeHosts(config: ServeRequest, listener: Option<Listener>, localIP: string): (hosts: seq<string>)
    requires config.port == 0 ==> listener.Some?
    ensures |hosts| == if config.host == "" then 2 else 1
    ensures forall h :: h in hosts ==> EndsWith(h, ":" + IntToString(ResolvedPort(config.port, listener)))
  {
    PlainHosts(config.host, ResolvedPort(config.port, listener), localIP)
  }

  /** The URL schema: "https" exactly when TLS is wanted, else "http" */
  function Schema(tls: TLSRequest): (schema: string)
    ensures schema == "https" <==> tls.WantsTLS()
    ensures schema == "http" || schema == "https"
  {
    if tls.WantsTLS() then "https" else "http"
  }

  /** The certificate pair: none without TLS, the generated one under auto-TLS, else the configured files */
  function CertificateFor(tls: TLSRequest, generated: Certificate): (c: Certificate)
    ensures !tls.WantsTLS() ==> c == Certificate("", "")
    ensures tls.WantsAutoTLS() ==> c == generated
    ensures tls.WantsTLS() && !tls.WantsAutoTLS() ==>
      c == Certificate(tls.certFile, tls.keyFile) && c.certFile != "" && c.keyFile != ""
  {
    if !tls.WantsTLS() then Certificate("", "")
    else if tls.WantsAutoTLS() then generated
    else Certificate(tls.certFile, tls.keyFile)
  }

  /** `resolveConfig`: the servant hosts, and a schema and certificate that agree with each other */
  function ServantValues(config: Configuration, listener: Option<Listener>, localIP: string, generated: Certificate): (v: ServerValues)
    requires ServantNeedsListener(config) ==> listener.Some?
    ensures v.hosts == ServantHosts(config, listener, localIP)
    ensures v.schema == "https" <==> config.tls.WantsTLS()
    ensures v.schema != "https" <==> v.certificate == Certificate("", "") && !config.tls.WantsAutoTLS()
  {
    ServerValues(ServantHosts(config, listener, localIP), Schema(config.tls), CertificateFor(config.tls, generated))
  }

  /** `resolveServerConfiguration`: the serve hosts, and a schema and certificate that agree with each other */
  function ServeValues(config: ServeRequest, listener: Option<Listener>, localIP: string, generated: Certificate): (v: ServerValues)
    requires config.port == 0 ==> listener.Some?
    ensures v.hosts == ServeHosts(config, listener, localIP)
    ensures v.schema == "https" <==> config.tls.WantsTLS()
    ensures v.schema != "https" <==> v.certificate == Certificate("", "") && !config.tls.WantsAutoTLS()
  {
    ServerValues(ServeHosts(config, listener, localIP), Schema(config.tls), CertificateFor(config.tls, generated))
  }

  /** `schema + "://" + host` for every host, in order (`addresses` / the listeners value) */
  function Urls(v: ServerValues): (r: seq<string>)
    ensures |r| == |v.hosts|
  {
    seq(|v.hosts|, i requires 0 <= i < |v.hosts| => v.schema + "://" + v.hosts[i])
  }

  /** `Start`: TLS serving exactly when TLS is wanted, with the resolved pair */
  function StartMode(tls: TLSRequest, v: ServerValues): (mode: ServeMode)
    ensures mode.ServeTLS? <==> tls.WantsTLS()
    ensures mode.ServeTLS? ==> mode.certFile == v.certificate.certFile && mode.keyFile == v.certificate.keyFile
  {
    if tls.WantsTLS() then ServeTLS(v.certificate.certFile, v.certificate.keyFile) else ServePlain
  }

  predicate EndsWith(s: string, suffix: string) {
    |suffix| <= |s| && s[|s| - |suffix|..] == suffix
  }

  // ---------------------------------------------------------------- properties

  /** The three shapes of the servant host list */
  lemma ServantHostRules(config: Configuration, listener: Option<Listener>, localIP: string)
    requires ServantNeedsListener(config) ==> listener.Some?
    ensures config.port == 0 ==> ResolvedPort(config.port, listener) == listener.value.port
    ensures config.port != 0 ==> ResolvedPort(config.port, listener) == config.port
    ensures config.expose ==> ServantHosts(config, listener, localIP) == [listener.value.address]
    ensures !config.expose && config.host == "" ==>
      var p := IntToString(ResolvedPort(config.port, listener));
      ServantHosts(config, listener, localIP) == ["127.0.0.1:" + p, localIP + ":" + p]
    ensures !config.expose && config.host != "" ==>
      ServantHosts(config, listener, localIP) == [config.host + ":" + IntToString(ResolvedPort(config.port, listener))]
  {
    var p := IntToString(ResolvedPort(config.port, listener));
    assert HostPort("127.0.0.1", ResolvedPort(config.port, listener)) == "127.0.0.1:" + p;
  }

  /** Without expose the two generations resolve the same values from the same settings */
  lemma GenerationsAgree(config: Configuration, serve: ServeRequest, listener: Option<Listener>, localIP: string, generated: Certificate)
    requires !config.expose
    requires config.host == serve.host && config.port == serve.port && config.tls == serve.tls
    requires config.port == 0 ==> listener.Some?
    ensures ServantValues(config, listener, localIP, generated) == ServeValues(serve, listener, localIP, generated)
  {
  }

  lemma NotEndsWithColonZero(prefix: string, port: int)
    requires port != 0
    ensures !EndsWith(HostPort(prefix, port), ":0")
  {
    var t := IntToString(port);
    var h := HostPort(prefix, port);
    assert h == prefix + ":" + t;
    assert h[|h| - 1] == t[|t| - 1];
    if |t| == 1 {
      assert port >= 0;
      assert t[0] != '0';
    } else {
      assert h[|h| - 2] == t[|t| - 2];
      if port >= 0 {
        assert IsDigit(t[|t| - 2]);
      } else {
        assert t[1..] == NatToString(-port);
        assert t[|t| - 2] == '-' || IsDigit(t[1..][|t| - 3]);
      }
    }
  }

  lemma HostPortSuffix(prefix: string, port: int)
    ensures EndsWith(HostPort(prefix, port), ":" + IntToString(port))
    ensures port != 0 ==> !EndsWith(HostPort(prefix, port), ":0")
  {
    assert HostPort(prefix, port) == prefix + (":" + IntToString(port));
    if port != 0 {
      NotEndsWithColonZero(prefix, port);
    }
  }

  /**
   * Every announced host ends in ":" and the resolved port, and a non-zero port never
   * leaves a host ending in ":0".
   */
  lemma HostsCarryResolvedPort(host: string, port: int, localIP: string)
    ensures forall h :: h in PlainHosts(host, port, localIP) ==> EndsWith(h, ":" + IntToString(port))
    ensures port != 0 ==> forall h :: h in PlainHosts(host, port, localIP) ==> !EndsWith(h, ":0")
  {
    if host == "" {
      HostPortSuffix("127.0.0.1", port);
      HostPortSuffix(localIP, port);
    } else {
      HostPortSuffix(host, port);
    }
  }

  /** An ephemeral port shows in every servant host: configured 0 never leaves ":0" behind */
  lemma EphemeralPortShown(config: Configuration, listener: Option<Listener>, localIP: string)
    requires config.port == 0 && !config.expose && listener.Some? && listener.value.port != 0
    ensures forall h :: h in ServantHosts(config, listener, localIP) ==>
      EndsWith(h, ":" + IntToString(listener.value.port)) && !EndsWith(h, ":0")
  {
    HostsCarryResolvedPort(config.host, listener.value.port, localIP);
  }

  /** Naming only one of the two files serves plain HTTP with no certificate */
  lemma OneFileIsPlain(tls: TLSRequest, generated: Certificate)
    requires !tls.auto && (tls.certFile == "") != (tls.keyFile == "")
    ensures Schema(tls) == "http" && CertificateFor(tls, generated) == Certificate("", "")
    ensures StartMode(tls, ServerValues([], Schema(tls), CertificateFor(tls, generated))) == ServePlain
  {
  }
}
