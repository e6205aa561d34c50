/** The round tripper as an object: its configuration, its two cache maps
    updated in place, and the operations that decorate a request, bind its
    address to a transport and perform the fingerprinted dial. Each operation
    is verified against its counterpart in CacheModel. */
module RoundTripping {
  import opened Types
  import opened HostPort
  import opened CacheModel

  /** The header key the user agent is stored under. */
  const UserAgentKey: string := "User-Agent"

  /** The parts of an outgoing request the round tripper changes: the cookies
      added to it, and its header apart from the `Cookie` line, which the
      cookies are serialised into. */
  class Request {
    const url: Url
    var cookies: seq<HttpCookie>
    var header: map<string, seq<string>>

    constructor (url: Url, cookies: seq<HttpCookie>, header: map<string, seq<string>>)
      ensures this.url == url && this.cookies == cookies && this.header == header
    {
      this.url := url;
      this.cookies := cookies;
      this.header := header;
    }
  }

  class RoundTripper {
    const ja3: string
    const userAgent: string
    const cookies: seq<Cookie>
    const dialer: Dialer
    var cachedConnections: map<Addr, TlsConn>
    var cachedTransports: map<Addr, Transport>

    /** The two maps as a value. */
    function Snapshot(): Cache
      reads this
    {
      Cache(cachedConnections, cachedTransports)
    }

    ghost predicate Valid()
      reads this
    {
      Inv(Snapshot())
    }

    /** A round tripper for a browser configuration, over the first dialer
        given or the direct one, with both maps empty. */
    constructor (browser: Browser, dialers: seq<Dialer>)
      ensures Valid() && Snapshot() == Empty
      ensures ja3 == browser.ja3 && userAgent == browser.userAgent && cookies == browser.cookies
      ensures dialer == if |dialers| > 0 then dialers[0] else Direct
    {
      if |dialers| > 0 {
        dialer := dialers[0];
      } else {
        dialer := Direct;
      }
      ja3 := browser.ja3;
      userAgent := browser.userAgent;
      cookies := browser.cookies;
      cachedTransports := map[];
      cachedConnections := map[];
    }

    /** The fingerprinted dial for `addr`, with the collaborators' answers in
        `env`. */
    method DialTLS(addr: Addr, env: DialEnv) returns (r: DialResult)
      requires Valid()
      modifies this
      ensures Valid()
      ensures Dialed(Snapshot(), r) == Dial(old(Snapshot()), addr, env)
    {
      if addr in cachedConnections {
        r := Conn(cachedConnections[addr]);
        cachedConnections := cachedConnections - {addr};
        return;
      }
      var established := Establish(addr, env);
      if established.Err? {
        return Failed(established.error);
      }
      var conn := established.value;
      if addr in cachedTransports {
        return Conn(conn);
      }
      if conn.negotiatedProtocol == NextProtoTLS {
        cachedTransports := cachedTransports[addr := BrowserHttp2];
      } else {
        cachedTransports := cachedTransports[addr := Http1Tls];
      }
      cachedConnections := cachedConnections[addr := conn];
      r := ProtocolNegotiated;
    }

    /** The dial the HTTP/2 transport is given: the fingerprinted dial. */
    method DialTLSHTTP2(addr: Addr, env: DialEnv) returns (r: DialResult)
      requires Valid()
      modifies this
      ensures Valid()
      ensures Dialed(Snapshot(), r) == Dial(old(Snapshot()), addr, env)
    {
      r := DialTLS(addr, env);
    }

    /** Binds `addr` to a transport according to the request's scheme. The
        caller has checked that the address has no transport; for https that
        is what keeps the dial from handing back a live connection. */
    method GetTransport(req: Request, addr: Addr, env: DialEnv) returns (err: Option<Error>)
      requires Valid()
      requires Lower(req.url.scheme) == "https" ==> addr !in cachedTransports
      modifies this
      ensures Valid()
      ensures Ensured(Snapshot(), err) == CacheModel.GetTransport(old(Snapshot()), req.url.scheme, addr, env, dialer)
    {
      var scheme := Lower(req.url.scheme);
      if scheme == "http" {
        cachedTransports := cachedTransports[addr := Plain(dialer, true)];
        return None;
      } else if scheme != "https" {
        return Some(InvalidScheme(req.url.scheme));
      }
      var r := DialTLS(addr, env);
      match r
      case ProtocolNegotiated =>
        err := None;
      case Failed(e) =>
        err := Some(e);
      case Conn(_) =>
        // dialTLS handing back a connection here is getTransport's panic
        assert false;
    }

    /** Adds every configured cookie to the request in list order, sets its
        user agent, binds its address to a transport if it has none, and hands
        it to that transport. */
    method RoundTrip(req: Request, env: DialEnv) returns (out: Outcome)
      requires Valid()
      modifies this, req
      ensures Valid()
      ensures req.cookies == old(req.cookies) + AttachAll(cookies)
      ensures req.header == old(req.header)[UserAgentKey := [userAgent]]
      ensures Routed(Snapshot(), out) == Dispatch(old(Snapshot()), req.url, env, dialer)
    {
      var i := 0;
      while i < |cookies|
        invariant 0 <= i <= |cookies|
        invariant req.cookies == old(req.cookies) + AttachAll(cookies)[..i]
        invariant req.header == old(req.header)
        modifies req
      {
        req.cookies := req.cookies + [ToHttpCookie(cookies[i])];
        i := i + 1;
      }
      req.header := req.header[UserAgentKey := [userAgent]];
      var addr := DialTLSAddr(req.url.host);
      if addr !in cachedTransports {
        var err := GetTransport(req, addr, env);
        if err.Some? {
          return Rejected(err.value);
        }
      }
      out := Forwarded(addr, cachedTransports[addr]);
    }
  }
}
