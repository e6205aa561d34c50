/** Runs of the round tripper from its initial state: every state reached by
    dispatching requests and by the bound transports asking for connections
    keeps the cache invariant, never loses or rebinds a transport, and
    performs at most one discovery handshake per address. */
module Trace {
  import opened Types
  import opened HostPort
  import opened CacheModel

  /** What changes the cache: a request dispatched by the round tripper, or a
      bound transport asking the fingerprinted dial for a connection to its
      address (the HTTP/1.x transport's TLS dial, the HTTP/2 transport's dial). */
  datatype Event = Request(url: Url, env: DialEnv) | TransportDial(addr: Addr, env: DialEnv)

  function Step(c: Cache, e: Event, dialer: Dialer): (d: Cache)
    requires Inv(c)
    ensures Inv(d) && Grows(c, d)
    ensures forall a :: a !in c.connections && a in d.connections ==> a !in c.transports
  {
    match e
    case Request(url, env) => Dispatch(c, url, env, dialer).cache
    case TransportDial(addr, env) => Dial(c, addr, env).cache
  }

  /** The cache after a sequence of events, starting from the empty one. */
  function Run(es: seq<Event>, dialer: Dialer): (c: Cache)
    ensures Inv(c)
  {
    if es == [] then Empty else Step(Run(es[..|es| - 1], dialer), es[|es| - 1], dialer)
  }

  lemma GrowsTransitive(a: Cache, b: Cache, c: Cache)
    requires Grows(a, b) && Grows(b, c)
    ensures Grows(a, c)
  {
  }

  /** The last event of a run is one step from the run before it. */
  lemma LastStep(es: seq<Event>, dialer: Dialer)
    requires es != []
    ensures Run(es, dialer) == Step(Run(es[..|es| - 1], dialer), es[|es| - 1], dialer)
    ensures Grows(Run(es[..|es| - 1], dialer), Run(es, dialer))
  {
  }

  /** The transport map only grows along a run, and no address is ever bound
      to a different transport. */
  lemma {:induction false} RunGrows(es: seq<Event>, k: nat, dialer: Dialer)
    requires k <= |es|
    ensures Grows(Run(es[..k], dialer), Run(es, dialer))
    decreases |es| - k
  {
    if k < |es| {
      var n := |es| - 1;
      assert es[..n][..k] == es[..k];
      RunGrows(es[..n], k, dialer);
      LastStep(es, dialer);
      GrowsTransitive(Run(es[..k], dialer), Run(es[..n], dialer), Run(es, dialer));
    } else {
      assert es[..k] == es;
    }
  }

  /** The step stashes a discovery connection for `addr`: the mark of a
      discovery handshake. */
  predicate Stashes(c: Cache, e: Event, addr: Addr, dialer: Dialer)
    requires Inv(c)
  {
    addr !in c.connections && addr in Step(c, e, dialer).connections
  }

  /** A step stashes a connection only for an address that had no transport
      and has one afterwards. */
  lemma StashesBinds(c: Cache, e: Event, addr: Addr, dialer: Dialer)
    requires Inv(c)
    ensures Stashes(c, e, addr, dialer) ==> addr !in c.transports && addr in Step(c, e, dialer).transports
  {
  }

  /** At most one discovery handshake per address along any run: once an
      address has been discovered, no later step stashes a connection for it. */
  lemma AtMostOneDiscovery(es: seq<Event>, i: nat, j: nat, addr: Addr, dialer: Dialer)
    requires i < j < |es|
    requires Stashes(Run(es[..i], dialer), es[i], addr, dialer)
    ensures !Stashes(Run(es[..j], dialer), es[j], addr, dialer)
  {
    var prefix := es[..i + 1];
    assert prefix[..i] == es[..i] && prefix[i] == es[i];
    LastStep(prefix, dialer);
    StashesBinds(Run(es[..i], dialer), es[i], addr, dialer);
    assert addr in Run(prefix, dialer).transports;
    assert es[..j][..i + 1] == prefix;
    RunGrows(es[..j], i + 1, dialer);
    StashesBinds(Run(es[..j], dialer), es[j], addr, dialer);
  }

  /** An https request to an address without a transport, whose
      fingerprinted connection is established, binds the transport ALPN
      selects and leaves the connection pending. */
  lemma HttpsDiscovers(c: Cache, addr: Addr, env: DialEnv, dialer: Dialer)
    requires Inv(c) && addr !in c.transports && Establish(addr, env).Ok?
    ensures GetTransport(c, "https", addr, env, dialer) ==
              Ensured(Cache(c.connections[addr := Establish(addr, env).value],
                            c.transports[addr := SelectTransport(env.alpn)]), None)
  {
    assert Lower("https") == "https";
    DialDiscovers(c, addr, env);
  }

  /** The first https request to a port-less host is keyed under
      "host:443", runs the discovery handshake with the host as server name
      and is handed to the transport ALPN selects. */
  lemma HttpsFirstRequest(c: Cache, host: string, env: DialEnv, dialer: Dialer)
    requires Inv(c) && ':' !in host && host + ":443" !in c.transports
    requires Establish(host + ":443", env).Ok?
    ensures var addr := host + ":443";
      var conn := Establish(addr, env).value;
      && conn.serverName == host
      && Dispatch(c, Url("https", host), env, dialer) ==
           Routed(Cache(c.connections[addr := conn], c.transports[addr := SelectTransport(env.alpn)]),
                  Forwarded(addr, SelectTransport(env.alpn)))
  {
    var addr := host + ":443";
    DialAddrDefaultsTo443(host);
    SplitJoin(host, "443");
    assert ServerName(addr) == host;
    HttpsDiscovers(c, addr, env, dialer);
  }

  /** A dial for an address whose discovery connection is pending hands out
      that connection and keeps the transport just bound. */
  lemma ClaimsDiscovery(c: Cache, addr: Addr, conn: TlsConn, t: Transport, later: DialEnv)
    requires addr !in c.connections
    ensures Dial(Cache(c.connections[addr := conn], c.transports[addr := t]), addr, later) ==
              Dialed(Cache(c.connections, c.transports[addr := t]), Conn(conn))
  {
    DialClaimsPending(Cache(c.connections[addr := conn], c.transports[addr := t]), addr, later);
    assert c.connections[addr := conn] - {addr} == c.connections;
  }

  /** The first https request to a port-less host, and then the first
      connection its transport asks for: the request runs one discovery
      handshake and is handed to the transport ALPN selects; the transport
      gets the discovery connection, opened with the host as server name, and
      the pending entry is gone while the transport stays. */
  lemma DiscoveryConnectionReused(c: Cache, host: string, env: DialEnv, later: DialEnv, dialer: Dialer)
    requires Inv(c) && ':' !in host && host + ":443" !in c.transports
    requires Establish(host + ":443", env).Ok?
    ensures var addr := host + ":443";
      var conn := Establish(addr, env).value;
      var first := Dispatch(c, Url("https", host), env, dialer);
      var second := Dial(first.cache, addr, later);
      && first.outcome == Forwarded(addr, SelectTransport(env.alpn))
      && first.cache.connections == c.connections[addr := conn]
      && conn.serverName == host
      && second.result == Conn(conn)
      && second.cache == Cache(c.connections, c.transports[addr := SelectTransport(env.alpn)])
  {
    var addr := host + ":443";
    HttpsFirstRequest(c, host, env, dialer);
    ClaimsDiscovery(c, addr, Establish(addr, env).value, SelectTransport(env.alpn), later);
  }

  /** A request whose scheme is http never runs a handshake during dispatch
      and never stashes a connection. */
  lemma HttpNeverStashes(c: Cache, url: Url, env: DialEnv, dialer: Dialer)
    requires Inv(c) && Lower(url.scheme) == "http"
    ensures Dispatch(c, url, env, dialer).cache.connections == c.connections
    ensures Dispatch(c, url, env, dialer).outcome.Forwarded?
  {
  }

  /** The cache key ignores the scheme: after an http request to a port-less
      host, an https request to the same host is handed to the plain transport
      without a fingerprinted handshake. */
  lemma SchemeBlindKey(c: Cache, host: string, env: DialEnv, later: DialEnv, dialer: Dialer)
    requires Inv(c) && ':' !in host && host + ":443" !in c.transports
    ensures var first := Dispatch(c, Url("http", host), env, dialer);
      Dispatch(first.cache, Url("https", host), later, dialer) ==
        Routed(first.cache, Forwarded(host + ":443", Plain(dialer, true)))
  {
    DialAddrDefaultsTo443(host);
    assert Lower("http") == "http";
  }

  /** A request with an unsupported scheme such as ftp is rejected with that
      scheme and changes nothing. */
  lemma UnsupportedSchemeRejected(c: Cache, host: string, env: DialEnv, dialer: Dialer)
    requires Inv(c) && DialTLSAddr(host) !in c.transports
    ensures Dispatch(c, Url("ftp", host), env, dialer) == Routed(c, Rejected(InvalidScheme("ftp")))
  {
    assert Lower("ftp") == "ftp";
  }
}
