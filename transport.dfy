/**
 * Connection settings and transport selection, shared by both generations of
 * the engine: the `ssl_options` guard, the override of scheme/host/port by a
 * parsed connection URL, and the dispatch from the scheme string to a UDP or
 * TCP transport. Transports are opaque tags; sockets, chunking and TLS are not
 * modelled.
 */
module Transport {
  import opened Php

  /** `Gelf\Transport\SslOptions`. */
  const SslOptionsClass := "Gelf\\Transport\\SslOptions"

  /** `UdpTransport::CHUNK_SIZE_LAN` of the GELF client library. */
  const ChunkSizeLan := 8154

  const DefaultScheme := "udp"
  const DefaultHost := "127.0.0.1"
  const DefaultPort := 12201

  /** `is_object($v) && $v instanceof SslOptions`. */
  predicate IsSslOptions(v: Value) {
    v.Obj? && SslOptionsClass in v.classes
  }

  /** The `ssl_options` guard: an `SslOptions` instance is kept, anything else becomes null. */
  function NormaliseSsl(v: Value): (r: Value)
    ensures r == Null || IsSslOptions(r)
    ensures r == v <==> IsSslOptions(v) || v == Null
    ensures !IsSslOptions(v) ==> r == Null
  {
    if !v.Obj? || !IsSslOptions(v) then Null else v
  }

  /** The scheme, host and port components of `parse_url($url)`, each present or not. */
  datatype ParsedUrl = ParsedUrl(scheme: Option<string>, host: Option<string>, port: Option<int>)

  /** Connection settings as the engine reads them from its configuration. */
  datatype Endpoint = Endpoint(scheme: string, host: string, port: int)

  /** `Hash::merge($config, parse_url($url))` on the connection keys: present components win. */
  function ApplyUrl(e: Endpoint, url: ParsedUrl): (r: Endpoint)
    ensures url.scheme.Some? ==> r.scheme == url.scheme.value
    ensures url.scheme.None? ==> r.scheme == e.scheme
    ensures url.host.Some? ==> r.host == url.host.value
    ensures url.host.None? ==> r.host == e.host
    ensures url.port.Some? ==> r.port == url.port.value
    ensures url.port.None? ==> r.port == e.port
  {
    Endpoint(url.scheme.GetOr(e.scheme), url.host.GetOr(e.host), url.port.GetOr(e.port))
  }

  /** The connection part of the constructor: URL override (when a `url` key exists), then lower-casing. */
  function ResolveEndpoint(e: Endpoint, url: Option<ParsedUrl>): (r: Endpoint)
    ensures IsLowerCase(r.scheme)
    ensures url.Some? && url.value.scheme.Some? ==> r.scheme == ToLower(url.value.scheme.value)
    ensures url.Some? && url.value.scheme.None? ==> r.scheme == ToLower(e.scheme)
    ensures url.Some? && url.value.host.Some? ==> r.host == url.value.host.value
    ensures url.Some? && url.value.host.None? ==> r.host == e.host
    ensures url.Some? && url.value.port.Some? ==> r.port == url.value.port.value
    ensures url.Some? && url.value.port.None? ==> r.port == e.port
    ensures url.None? ==> r == e.(scheme := ToLower(e.scheme))
  {
    var merged := if url.Some? then ApplyUrl(e, url.value) else e;
    merged.(scheme := ToLower(merged.scheme))
  }

  /** `new UdpTransport(..)`, `new TcpTransport(..)` and `new IgnoreErrorTransportWrapper(..)`. */
  datatype Transport =
    | Udp(host: string, port: int, chunkSize: int)
    | Tcp(host: string, port: int, ssl: Value)
    | IgnoreErrors(inner: Transport)

  /** `new Publisher($transport)`. */
  datatype Publisher = Publisher(transport: Transport)

  /**
   * The scheme dispatch: "udp" and "tcp" (compared exactly) build the matching
   * transport; any other scheme raises a LogicException with the given message.
   */
  function Dispatch(e: Endpoint, chunkSize: int, ssl: Value, unknownMessage: string): (r: Result<Transport>)
    ensures r.Ok? <==> e.scheme == "udp" || e.scheme == "tcp"
    ensures r.Ok? ==> !r.value.IgnoreErrors? && r.value.host == e.host && r.value.port == e.port
    ensures r.Ok? && r.value.Udp? ==> e.scheme == "udp" && r.value.chunkSize == chunkSize
    ensures r.Ok? && r.value.Tcp? ==> e.scheme == "tcp" && r.value.ssl == ssl
    ensures r.Err? ==> r.error == LogicException(unknownMessage)
  {
    if e.scheme == "udp" then Ok(Udp(e.host, e.port, chunkSize))
    else if e.scheme == "tcp" then Ok(Tcp(e.host, e.port, ssl))
    else Err(LogicException(unknownMessage))
  }

  /** A `TCP://1.2.3.4` URL resolves to the TCP transport on the default port. */
  lemma UpperCaseUrlSchemeSelectsTcp(ssl: Value)
    ensures var e := ResolveEndpoint(Endpoint(DefaultScheme, DefaultHost, DefaultPort),
                                     Some(ParsedUrl(Some("TCP"), Some("1.2.3.4"), None)));
            Dispatch(e, ChunkSizeLan, ssl, "") == Ok(Tcp("1.2.3.4", 12201, ssl))
  {
    var e := ResolveEndpoint(Endpoint(DefaultScheme, DefaultHost, DefaultPort),
                             Some(ParsedUrl(Some("TCP"), Some("1.2.3.4"), None)));
    assert e.scheme == "tcp";
  }
}
