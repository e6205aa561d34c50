/** The per-address cache of the round tripper as values: the pending
    connections and the transports, and the three operations that change them
    (the fingerprinted dial, building a transport, dispatching a request),
    each as a function from the old cache to the new one. The class in
    roundtripper.dfy is verified against these functions. */
module CacheModel {
  import opened Types
  import opened HostPort

  /** A cache key, "host:port". */
  type Addr = string

  /** The two maps of the round tripper: one pending handshaked connection per
      address, and the transport each address is bound to. */
  datatype Cache = Cache(connections: map<Addr, TlsConn>, transports: map<Addr, Transport>)

  /** The state a new round tripper starts in. */
  const Empty: Cache := Cache(map[], map[])

  /** The cache invariant: a connection is pending only for an address that
      already has a transport. */
  predicate Inv(c: Cache) {
    c.connections.Keys <= c.transports.Keys
  }

  /** `d` keeps every transport of `c`, bound to the same value. */
  predicate Grows(c: Cache, d: Cache) {
    && c.transports.Keys <= d.transports.Keys
    && forall a :: a in c.transports ==> d.transports[a] == c.transports[a]
  }

  /** The protocol identifier of HTTP/2 over TLS (section 3.1 of RFC 7540). */
  const NextProtoTLS: string := "h2"

  /** The result of a fingerprinted dial: a connection for the caller, the
      sentinel that the protocol was discovered and a transport built, or an
      error. */
  datatype DialResult = Conn(conn: TlsConn) | ProtocolNegotiated | Failed(error: Error)

  datatype Dialed = Dialed(cache: Cache, result: DialResult)

  /** The TLS server name for an address: its host part, or the whole address
      when it does not split. */
  function ServerName(addr: Addr): string {
    match SplitHostPort(addr)
    case Some((host, _)) => host
    case None => addr
  }

  /** The handshake error returned for a handshake failure text. */
  function HandshakeError(cause: string): (e: Error)
    ensures e.RetryableHandshake? <==> cause == UnsupportedCurve
    ensures e.RetryableHandshake? || e.HandshakeFailed?
    ensures e.cause == cause
  {
    if cause == UnsupportedCurve then RetryableHandshake(cause) else HandshakeFailed(cause)
  }

  /** Opening a fresh fingerprinted connection to `addr`: dial, compile the JA3
      specification, apply it, hand shake. The first step that fails decides
      the error. */
  function Establish(addr: Addr, env: DialEnv): (r: Result<TlsConn, Error>)
    ensures r.Ok? <==> env.dial.Ok? && env.compiled.Ok? && env.preset.None? && env.handshake.None?
    ensures r.Ok? ==> r.value.raw == env.dial.value && r.value.spec == env.compiled.value
    ensures r.Ok? ==> r.value.serverName == ServerName(addr) && r.value.negotiatedProtocol == env.alpn
    ensures env.dial.Err? ==> r == Err(DialFailed(env.dial.error))
    ensures env.dial.Ok? && env.compiled.Err? ==> r == Err(SpecInvalid(env.compiled.error))
    ensures env.dial.Ok? && env.compiled.Ok? && env.preset.Some? ==> r == Err(PresetFailed(env.preset.value))
    ensures env.dial.Ok? && env.compiled.Ok? && env.preset.None? && env.handshake.Some? ==>
              r == Err(HandshakeError(env.handshake.value))
    ensures (r.Err? && r.error.RetryableHandshake?) <==>
              (env.dial.Ok? && env.compiled.Ok? && env.preset.None? && env.handshake == Some(UnsupportedCurve))
  {
    match env.dial
    case Err(m) => Err(DialFailed(m))
    case Ok(raw) =>
      match env.compiled
      case Err(m) => Err(SpecInvalid(m))
      case Ok(spec) =>
        match env.preset
        case Some(m) => Err(PresetFailed(m))
        case None =>
          match env.handshake
          case Some(cause) => Err(HandshakeError(cause))
          case None => Ok(TlsConn(raw, ServerName(addr), spec, env.alpn))
  }

  /** The transport built for a newly discovered address, from the protocol ALPN
      selected: HTTP/2 exactly for "h2", HTTP/1.x over TLS otherwise. */
  function SelectTransport(protocol: string): (t: Transport)
    ensures t.Http2? <==> protocol == NextProtoTLS
    ensures !t.Http2? ==> t.Http1Tls?
    ensures t.Http2? ==> t.settings == BrowserHttp2.settings && WithinRfc7540(t)
    ensures t.Http2? ==> t.initialWindowSize == 6291456 && t.headerTableSize == 65536
  {
    if protocol == NextProtoTLS then BrowserHttp2 else Http1Tls
  }

  /** The fingerprinted dial for `addr`. A pending connection is claimed and
      removed. Otherwise a fresh connection is established; when the address
      already has a transport it goes to the caller, and when it has none a
      transport is chosen from ALPN, the connection is stashed for the request
      that triggered the dial, and the sentinel is returned. */
  function Dial(c: Cache, addr: Addr, env: DialEnv): (d: Dialed)
    ensures Inv(c) ==> Inv(d.cache)
    ensures Grows(c, d.cache)
    ensures forall a :: a !in c.connections && a in d.cache.connections ==> a == addr && a !in c.transports
  {
    if addr in c.connections then
      Dialed(c.(connections := c.connections - {addr}), Conn(c.connections[addr]))
    else
      match Establish(addr, env)
      case Err(e) => Dialed(c, Failed(e))
      case Ok(conn) =>
        if addr in c.transports then Dialed(c, Conn(conn))
        else
          var t := SelectTransport(conn.negotiatedProtocol);
          Dialed(Cache(c.connections[addr := conn], c.transports[addr := t]), ProtocolNegotiated)
  }

  /** Claim: a pending connection is handed out and removed; nothing is dialled
      and the transports stay as they are. */
  lemma DialClaimsPending(c: Cache, addr: Addr, env: DialEnv)
    requires addr in c.connections
    ensures Dial(c, addr, env).result == Conn(c.connections[addr])
    ensures Dial(c, addr, env).cache.connections == c.connections - {addr}
    ensures addr !in Dial(c, addr, env).cache.connections
    ensures Dial(c, addr, env).cache.transports == c.transports
  {
  }

  /** A failed dial, JA3 compilation, preset or handshake changes neither map. */
  lemma DialFailureLeavesCache(c: Cache, addr: Addr, env: DialEnv)
    requires addr !in c.connections
    requires Establish(addr, env).Err?
    ensures Dial(c, addr, env) == Dialed(c, Failed(Establish(addr, env).error))
  {
  }

  /** A handshake failure is reported as retryable exactly for the
      unsupported-curve text, as the generic handshake error otherwise. */
  lemma DialHandshakeError(c: Cache, addr: Addr, env: DialEnv, cause: string)
    requires addr !in c.connections
    requires env.dial.Ok? && env.compiled.Ok? && env.preset.None? && env.handshake == Some(cause)
    ensures Dial(c, addr, env).cache == c
    ensures Dial(c, addr, env).result.Failed?
    ensures Dial(c, addr, env).result.error.RetryableHandshake? <==> cause == UnsupportedCurve
    ensures Dial(c, addr, env).result.error.HandshakeFailed? <==> cause != UnsupportedCurve
    ensures Dial(c, addr, env).result.error.cause == cause
  {
  }

  /** An address that already has a transport gets the new connection, and
      neither map changes. */
  lemma DialWithTransport(c: Cache, addr: Addr, env: DialEnv)
    requires addr !in c.connections && addr in c.transports
    requires Establish(addr, env).Ok?
    ensures Dial(c, addr, env) == Dialed(c, Conn(Establish(addr, env).value))
  {
  }

  /** Discovery: an address with no transport gets one chosen from ALPN, the
      connection is stashed for it, and the caller gets only the sentinel. */
  lemma DialDiscovers(c: Cache, addr: Addr, env: DialEnv)
    requires addr !in c.connections && addr !in c.transports
    requires Establish(addr, env).Ok?
    ensures Dial(c, addr, env).result == ProtocolNegotiated
    ensures Dial(c, addr, env).cache.connections == c.connections[addr := Establish(addr, env).value]
    ensures Dial(c, addr, env).cache.transports == c.transports[addr := SelectTransport(env.alpn)]
    ensures Dial(c, addr, env).cache.transports[addr].Http2? <==> env.alpn == NextProtoTLS
  {
  }

  /** The sentinel is returned only by the dial that binds the address to its
      first transport. */
  lemma SentinelOnlyOnDiscovery(c: Cache, addr: Addr, env: DialEnv)
    requires Inv(c)
    ensures Dial(c, addr, env).result == ProtocolNegotiated <==>
              (addr !in c.transports && Establish(addr, env).Ok?)
    ensures Dial(c, addr, env).result == ProtocolNegotiated ==>
              addr in Dial(c, addr, env).cache.transports && addr in Dial(c, addr, env).cache.connections
  {
  }

  /** For an address with no transport yet, the dial never hands back a live
      connection: the panic in getTransport cannot be reached. */
  lemma NoConnBeforeTransport(c: Cache, addr: Addr, env: DialEnv)
    requires Inv(c) && addr !in c.transports
    ensures !Dial(c, addr, env).result.Conn?
  {
  }

  datatype Ensured = Ensured(cache: Cache, error: Option<Error>)

  /** Building the transport for `addr` from the request's scheme, compared
      lower-cased: "http" binds a plain transport over the configured dialer
      with keep-alives disabled; "https" runs the discovery dial; anything else
      is rejected. The caller has checked that an https address has no
      transport yet. */
  function GetTransport(c: Cache, scheme: string, addr: Addr, env: DialEnv, dialer: Dialer): (g: Ensured)
    requires Inv(c)
    requires Lower(scheme) == "https" ==> addr !in c.transports
    ensures Inv(g.cache)
    ensures c.transports.Keys <= g.cache.transports.Keys
    ensures addr !in c.transports ==> Grows(c, g.cache)
    ensures forall a :: a !in c.connections && a in g.cache.connections ==> a == addr && a !in c.transports
    ensures g.error.None? ==> addr in g.cache.transports
  {
    var s := Lower(scheme);
    if s == "http" then
      Ensured(c.(transports := c.transports[addr := Plain(dialer, true)]), None)
    else if s != "https" then
      Ensured(c, Some(InvalidScheme(scheme)))
    else
      var d := Dial(c, addr, env);
      match d.result
      case ProtocolNegotiated => Ensured(d.cache, None)
      case Failed(e) => Ensured(d.cache, Some(e))
      case Conn(_) => assert false; Ensured(d.cache, None)
  }

  /** An http scheme binds the plain transport and never touches the pending
      connections. */
  lemma GetTransportHttp(c: Cache, scheme: string, addr: Addr, env: DialEnv, dialer: Dialer)
    requires Inv(c) && Lower(scheme) == "http"
    ensures GetTransport(c, scheme, addr, env, dialer) ==
              Ensured(c.(transports := c.transports[addr := Plain(dialer, true)]), None)
  {
  }

  /** A scheme other than http and https is rejected with the scheme as
      written, and the cache is unchanged. */
  lemma GetTransportRejects(c: Cache, scheme: string, addr: Addr, env: DialEnv, dialer: Dialer)
    requires Inv(c) && Lower(scheme) != "http" && Lower(scheme) != "https"
    ensures GetTransport(c, scheme, addr, env, dialer) == Ensured(c, Some(InvalidScheme(scheme)))
  {
  }

  /** For https, building succeeds exactly when the fingerprinted connection
      is established, and then the address has the transport ALPN selects and
      a pending connection; on failure the cache is unchanged. */
  lemma GetTransportHttps(c: Cache, scheme: string, addr: Addr, env: DialEnv, dialer: Dialer)
    requires Inv(c) && Lower(scheme) == "https" && addr !in c.transports
    ensures var g := GetTransport(c, scheme, addr, env, dialer);
      && (g.error.None? <==> Establish(addr, env).Ok?)
      && (g.error.None? ==> g.cache.transports[addr] == SelectTransport(env.alpn)
                            && g.cache.connections[addr] == Establish(addr, env).value)
      && (g.error.Some? ==> g.cache == c && g.error.value == Establish(addr, env).error)
  {
  }

  /** What a dispatched request comes to: handed to the transport bound to its
      address, or rejected with an error. */
  datatype Outcome = Forwarded(addr: Addr, transport: Transport) | Rejected(error: Error)

  datatype Routed = Routed(cache: Cache, outcome: Outcome)

  /** The cache side of a round trip: compute the key, build the transport
      when the key has none, and hand the request to the transport. */
  function Dispatch(c: Cache, url: Url, env: DialEnv, dialer: Dialer): (r: Routed)
    requires Inv(c)
    ensures Inv(r.cache) && Grows(c, r.cache)
    ensures forall a :: a !in c.connections && a in r.cache.connections ==> a !in c.transports
    ensures r.outcome.Forwarded? ==>
              && r.outcome.addr == DialTLSAddr(url.host)
              && r.outcome.addr in r.cache.transports
              && r.cache.transports[r.outcome.addr] == r.outcome.transport
  {
    var addr := DialTLSAddr(url.host);
    if addr in c.transports then
      Routed(c, Forwarded(addr, c.transports[addr]))
    else
      var g := GetTransport(c, url.scheme, addr, env, dialer);
      match g.error
      case Some(e) => Routed(g.cache, Rejected(e))
      case None => Routed(g.cache, Forwarded(addr, g.cache.transports[addr]))
  }

  /** A request to an address that already has a transport changes nothing
      and goes to that transport, whatever its scheme. */
  lemma DispatchCached(c: Cache, url: Url, env: DialEnv, dialer: Dialer)
    requires Inv(c) && DialTLSAddr(url.host) in c.transports
    ensures Dispatch(c, url, env, dialer) ==
              Routed(c, Forwarded(DialTLSAddr(url.host), c.transports[DialTLSAddr(url.host)]))
  {
  }

  /** A request is rejected only with the error that building its transport
      returned, and then no transport was bound for it. */
  lemma DispatchRejected(c: Cache, url: Url, env: DialEnv, dialer: Dialer)
    requires Inv(c)
    requires Dispatch(c, url, env, dialer).outcome.Rejected?
    ensures DialTLSAddr(url.host) !in c.transports
    ensures Dispatch(c, url, env, dialer).cache == c
    ensures Dispatch(c, url, env, dialer).outcome.error ==
              GetTransport(c, url.scheme, DialTLSAddr(url.host), env, dialer).error.value
  {
    var addr := DialTLSAddr(url.host);
    var s := Lower(url.scheme);
    if s == "https" && addr !in c.transports {
      GetTransportHttps(c, url.scheme, addr, env, dialer);
    } else if s != "http" && addr !in c.transports {
      GetTransportRejects(c, url.scheme, addr, env, dialer);
    }
  }
}
