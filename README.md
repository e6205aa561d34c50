# CycleTLS round tripper: the per-address transport cache

This project models the HTTP round tripper of CycleTLS. The round tripper
makes every HTTPS connection with a browser-fingerprinted TLS handshake. It
keeps two maps keyed by `host:port`:

- `cachedTransports` holds the transport an address is bound to: plain
  HTTP, HTTP/1.x over TLS, or HTTP/2 with a fixed settings block.
- `cachedConnections` holds at most one pending connection per address: the
  connection whose handshake discovered the protocol (by ALPN), kept for the
  request that triggered it.

The model has five modules:

- `Types` (types.dfy) holds the configuration, the cookies, the transport
  kinds, the HTTP/2 setting identifiers of section 6.5.2 of RFC 7540, TLS
  connections, errors with the messages the round tripper formats, and
  `DialEnv`. `DialEnv` bundles the answers of the code outside the model:
  the raw dial, compiling the JA3 string, applying the preset, the
  handshake, and the protocol ALPN negotiated.
- `HostPort` (hostport.dfy) computes the cache key of a request and
  lower-cases the scheme.
- `CacheModel` (cache.dfy) describes the two maps as a value. Each operation
  is a function from the old cache to the new one: the fingerprinted dial
  (`Dial`), building a transport (`GetTransport`) and dispatching a request
  (`Dispatch`). Lemmas beside them state the claim, failure, existing-transport
  and discovery behaviour.
- `Trace` (trace.dfy) runs sequences of requests and transport dials from
  the empty cache. Along every run the invariant holds, the transport map
  only grows, and no address is discovered twice.
- `RoundTripping` (roundtripper.dfy) is the round tripper as a class. Its
  fields are the two maps, and its methods update them in place. Each method
  is verified against its `CacheModel` function.

The dial result is an explicit variant: `Conn(c)`, `ProtocolNegotiated` or
`Failed(e)`. CycleTLS uses a sentinel error value for `ProtocolNegotiated`.
The panic in `getTransport` is an `assert false` in the branch where the
dial returns a live connection. The verifier proves this branch unreachable
in every sequential run, given the invariant (pending keys are a subset of
transport keys) and the fact that the address has no transport yet.

Some behaviour of CycleTLS worth knowing when reading the model:

- Errors from dialing, JA3 compilation and the preset are the collaborators'
  own errors, returned unchanged (`Error.Message` gives back their text).
- The two handshake errors carry the messages the round tripper formats:
  the retryable TLS 1.3 message for the unsupported-curve failure, the
  generic handshake message otherwise.
- An `http` request binds a transport without any handshake. So a TLS
  transport is bound exactly when a discovery handshake succeeded, but a
  plain transport is bound with none.
- `getTransport` does not check the cache itself; `RoundTrip` checks it
  before calling. An `https` call for an address that already has a
  transport panics when that address has a pending connection, or when the
  new dial and handshake succeed. `RoundTripper.GetTransport` therefore
  requires that an `https` address has no transport.
- The cache key ignores the scheme. After an `http` request to a host with
  no port, an `https` request to that host goes to the plain transport
  without a fingerprinted handshake (`Trace.SchemeBlindKey`).

## Model

| member | source | states |
|---|---|---|
| `Types.ToHttpCookie` | cycletls/roundtripper.go:38-49 | every attribute of the configured cookie is copied into the request cookie (projecting back gives the original); SameSite is left unset |
| `Types.AttachAll` | cycletls/roundtripper.go:37-50 | the request cookies for a cookie list keep its length and order, element i converted from cookie i |
| `Types.HandshakeMessagesDiffer` | cycletls/roundtripper.go:121-125 | the retryable TLS 1.3 message and the generic handshake message can never be equal, whatever their causes |
| `Types.SettingId.Code` | cycletls/roundtripper.go:138-142 | each HTTP/2 setting identifier the transport announces has a code in the range 1 to 6 that section 6.5.2 of RFC 7540 defines |
| `Types.CodeInjective` | cycletls/roundtripper.go:138-142 | distinct setting identifiers have distinct codes, so the settings block names each setting unambiguously |
| `HostPort.SplitHostPort` | cycletls/roundtripper.go:165-166 | splitting succeeds exactly when the address has one colon; host and port are colon-free and rejoin to the input |
| `HostPort.SplitJoin` | cycletls/roundtripper.go:165-167 | splitting a joined colon-free host and port gives back that host and port |
| `HostPort.JoinSplit` | cycletls/roundtripper.go:165-167 | joining the parts of a successful split gives back the address |
| `HostPort.DialTLSAddr` | cycletls/roundtripper.go:164-170 | for a host with at most one colon, the key always splits; it keeps the host's own port, or has port 443 when there is none; a host with two or more colons is bracketed and given port 443 |
| `HostPort.DialAddrKeepsPort` | cycletls/roundtripper.go:165-167 | a host that already has a port is its own cache key |
| `HostPort.DialAddrDefaultsTo443` | cycletls/roundtripper.go:169 | a host without a port is keyed `host:443`, whatever the scheme |
| `HostPort.DialAddrIdempotent` | cycletls/roundtripper.go:164-170 | for a host with at most one colon, normalising its cache key again leaves it unchanged |
| `HostPort.Lower` | cycletls/roundtripper.go:62 | the lower-cased scheme has the same length, each letter lowered, and no upper-case ASCII letter |
| `HostPort.LowerIdempotent` | cycletls/roundtripper.go:62 | lower-casing twice is the same as once |
| `CacheModel.HandshakeError` | cycletls/roundtripper.go:118-126 | a handshake failure is the retryable TLS 1.3 error exactly when its text is the unsupported-curve text, otherwise the generic handshake error; the cause is kept |
| `CacheModel.Establish` | cycletls/roundtripper.go:94-126 | a connection is established exactly when the dial, JA3 compilation, preset and handshake all succeed; it wraps the dialled connection with the host as server name, the compiled spec and the ALPN result; the first step that fails decides the error: a dial error, a JA3 compilation error or a preset error is returned unchanged in its own kind, and a handshake failure becomes the handshake error for its cause; the error is retryable exactly for the curve failure |
| `CacheModel.SelectTransport` | cycletls/roundtripper.go:135-150 | HTTP/2 exactly when ALPN gave "h2", otherwise HTTP/1.x over TLS; the HTTP/2 settings are the fixed browser block, within the bounds of RFC 7540, window 6291456 and header table 65536 |
| `CacheModel.Dial` | cycletls/roundtripper.go:84-158 | the dial keeps the invariant, never removes or rebinds a transport, and adds a pending connection only for the dialled address when it had no transport |
| `CacheModel.DialClaimsPending` | cycletls/roundtripper.go:88-93 | a pending connection is returned and deleted, and the transports are unchanged |
| `CacheModel.DialFailureLeavesCache` | cycletls/roundtripper.go:94-126 | when dialing, compiling, applying the preset or the handshake fails, both maps are unchanged and that error is returned |
| `CacheModel.DialHandshakeError` | cycletls/roundtripper.go:118-126 | on a handshake failure both maps are unchanged; the error is retryable if and only if the text is the unsupported-curve text, generic otherwise, and carries the cause |
| `CacheModel.DialWithTransport` | cycletls/roundtripper.go:129-131 | for an address that has a transport, the new connection is returned and neither map changes |
| `CacheModel.DialDiscovers` | cycletls/roundtripper.go:133-157 | for an address with no transport: the sentinel is returned, the ALPN-chosen transport is stored (HTTP/2 exactly for "h2"), and the connection is stashed |
| `CacheModel.SentinelOnlyOnDiscovery` | cycletls/roundtripper.go:129-157 | the sentinel is returned if and only if the address had no transport and the handshake succeeded; afterwards the address has both a transport and a pending connection |
| `CacheModel.NoConnBeforeTransport` | cycletls/roundtripper.go:71-79 | under the invariant, dialing an address with no transport never returns a live connection, so in every sequential run the panic cannot be reached |
| `CacheModel.GetTransport` | cycletls/roundtripper.go:61-82 | building keeps the invariant, loses no transport, rebinds nothing for a new address, stashes only for its own address, and on success the address has a transport |
| `CacheModel.GetTransportHttp` | cycletls/roundtripper.go:63-65 | scheme http (any case) binds the plain transport over the configured dialer with keep-alives disabled, and leaves the pending connections untouched |
| `CacheModel.GetTransportRejects` | cycletls/roundtripper.go:67-68 | any scheme other than http or https returns the invalid-scheme error naming the scheme as written, and the cache is unchanged |
| `CacheModel.GetTransportHttps` | cycletls/roundtripper.go:66-81 | for https, success happens exactly when the connection is established; the address then has the ALPN-chosen transport and the pending connection; on failure the cache is unchanged and the dial's error is returned |
| `CacheModel.Dispatch` | cycletls/roundtripper.go:52-58 | dispatching keeps the invariant and grows the transports; a forwarded request goes to the transport now bound to its key, which is guaranteed present |
| `CacheModel.DispatchCached` | cycletls/roundtripper.go:52-58 | a request whose key already has a transport changes nothing and goes to that transport |
| `CacheModel.DispatchRejected` | cycletls/roundtripper.go:53-56 | a rejected request had no transport, leaves the cache unchanged, and carries the error that building returned |
| `Trace.Step` | cycletls/roundtripper.go:52-58 | every request or transport dial keeps the invariant, grows the transports, and stashes only for an address that had no transport |
| `Trace.Run` | cycletls/roundtripper.go:172-195 | every state reached from the empty maps satisfies the invariant: pending keys are a subset of transport keys |
| `Trace.RunGrows` | cycletls/roundtripper.go:61-158 | along any run, the transports of an earlier state are all present later and bound to the same transport |
| `Trace.StashesBinds` | cycletls/roundtripper.go:129-157 | a step stashes a connection only for an address that had no transport and has one afterwards |
| `Trace.AtMostOneDiscovery` | cycletls/roundtripper.go:129-157 | once a step has stashed a discovery connection for an address, no later step stashes one for it again |
| `Trace.HttpsFirstRequest` | cycletls/roundtripper.go:52-81 | from any cache satisfying the invariant in which `host:443` has no transport, an https request to a port-less host discovers `host:443` with the host as server name, binds and goes to the ALPN-chosen transport, and leaves the connection pending |
| `Trace.ClaimsDiscovery` | cycletls/roundtripper.go:88-93 | a dial for an address whose discovery connection is pending returns that connection, removes it, and keeps the transport |
| `Trace.DiscoveryConnectionReused` | cycletls/roundtripper.go:84-157 | from any cache satisfying the invariant in which `host:443` has no transport, the first https request to a port-less host discovers `host:443` (server name = host) and goes to the ALPN-chosen transport; that transport's first dial gets the discovery connection, and the pending connections are back to what they were |
| `Trace.HttpsDiscovers` | cycletls/roundtripper.go:66-81 | an https build for an address without a transport whose connection is established binds the ALPN-chosen transport and stashes the connection, with no error |
| `Trace.HttpNeverStashes` | cycletls/roundtripper.go:63-65 | an http request never stashes a connection and is always forwarded |
| `Trace.SchemeBlindKey` | cycletls/roundtripper.go:52-58 | from any cache satisfying the invariant in which `host:443` has no transport, after an http request to a port-less host, an https request to it goes to the plain transport with no fingerprinted handshake and changes nothing |
| `Trace.UnsupportedSchemeRejected` | cycletls/roundtripper.go:67-68 | an ftp request to an address with no transport is rejected with the ftp scheme and changes nothing |
| `RoundTripping.RoundTripper.constructor` | cycletls/roundtripper.go:172-195 | the new round tripper has both maps empty and the browser's JA3, user agent and cookies; it uses the first supplied dialer, or the direct one when none is supplied |
| `RoundTripping.RoundTripper.DialTLS` | cycletls/roundtripper.go:84-158 | the in-place dial keeps the invariant, and its new maps and result are those of `CacheModel.Dial` |
| `RoundTripping.RoundTripper.DialTLSHTTP2` | cycletls/roundtripper.go:160-162 | the HTTP/2 transport's dial is the fingerprinted dial: same maps and result as `CacheModel.Dial` |
| `RoundTripping.RoundTripper.GetTransport` | cycletls/roundtripper.go:61-82 | in-place building keeps the invariant; its new maps and error are those of `CacheModel.GetTransport`; the panic branch is proved unreachable in every sequential run |
| `RoundTripping.RoundTripper.RoundTrip` | cycletls/roundtripper.go:35-59 | the configured cookies are appended in order; User-Agent is overwritten with the configured value; the new maps and the forwarded transport or error are those of `CacheModel.Dispatch` |

## Left out

- Network, proxy and TLS I/O are not modelled: the raw dial, the uTLS client, `ApplyPreset`, `Handshake` and the ALPN result. Their outcomes are the fields of `DialEnv`.
- `StringToSpec` is not part of this model. Its outcome on the client's JA3 string is the `compiled` field of `DialEnv`, and the JA3 string is only carried.
- The fhttp and http2 transports are not modelled: request framing, connection pooling, and each transport's own round trip. A transport is its kind and configuration, and a forwarded request is `Forwarded(addr, transport)`. When a bound transport asks for a connection, that is a call to `DialTLS`/`DialTLSHTTP2`, a `TransportDial` event in `Trace`. Whether and when it asks is left to the caller.
- The mutex and concurrency are not modelled; operations run sequentially. `RoundTrip` reads `cachedTransports` without the lock (cycletls/roundtripper.go:53), so two overlapping requests to a new https address can both call `getTransport`. The first one's dial stashes its connection. The second one's dial then gets that connection back with no error, and `getTransport` panics (cycletls/roundtripper.go:76). The model does not capture this.
- `context.Context` deadlines and `tls.Config` parameters are not modelled; only the server name is kept.
- Connection resources are not tracked: closing the connection on a handshake failure, and the raw connection left open when spec compilation or the preset fails.
- Connection identities come from the dialer through `DialEnv`. The model does not require them to be fresh.
- `req.AddCookie` is modelled as appending the cookie record to the request's cookie list. In fhttp, as in net/http, it writes only the sanitised `name=value` pair into the `Cookie` header line and drops every other attribute; that step is not modelled. `Request.header` stands for the request header without its `Cookie` line, so `RoundTrip` leaving the rest of it unchanged says nothing about the `Cookie` line, which the program does change whenever cookies are configured.
- A cookie's `Expires` time is an opaque integer.
- `HostPort.SplitHostPort`: does not handle bracketed IPv6 literals (`[::1]:443`) or the stray-bracket errors of Go's `net.SplitHostPort`. A bracketed host is therefore treated as having no port. `JoinHostPort` does bracket a host that contains a colon, as Go does.
- `HostPort.Lower`: lowers ASCII letters only. Go's `strings.ToLower` also lowers other Unicode letters. The only ones that become ASCII letters are the Kelvin sign and the dotted capital I, which become `k` and `i`. So comparing with `http` and `https` gives the same answer.
- The HTTP/2 push handler is a flag. The `DefaultPushHandler` behaviour belongs to the http2 library.
