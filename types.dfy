/** Values shared by the round-tripper model: configuration, cookies, the
    transport kinds an address can be bound to, TLS connections, the outcomes
    of the foreign dial/handshake steps, and the errors the round tripper
    returns. */
module Types {

  datatype Option<+T> = None | Some(value: T)

  datatype Result<+T, +E> = Ok(value: T) | Err(error: E)

  /** The dial strategy fixed at construction: the direct dialer, or one
      supplied by the caller (a proxy dialer), identified abstractly. */
  datatype Dialer = Direct | Supplied(id: nat)

  /** A cookie as configured on the client. `expires` stands for the time value
      of its JSON expiry and is kept opaque. */
  datatype Cookie = Cookie(
    name: string, value: string, path: string, domain: string,
    expires: int, rawExpires: string, maxAge: int,
    httpOnly: bool, secure: bool, raw: string, unparsed: seq<string>)

  /** The HTTP library's cookie record. `sameSite` is the one attribute the
      client's cookie has no counterpart for; 0 is its unset value. */
  datatype HttpCookie = HttpCookie(
    name: string, value: string, path: string, domain: string,
    expires: int, rawExpires: string, maxAge: int,
    httpOnly: bool, secure: bool, raw: string, unparsed: seq<string>,
    sameSite: nat)

  /** The client configuration a round tripper is built from. */
  datatype Browser = Browser(ja3: string, userAgent: string, cookies: seq<Cookie>)

  /** The part of a request URL the round tripper looks at. */
  datatype Url = Url(scheme: string, host: string)

  /** HTTP/2 setting identifiers, with their codes from section 6.5.2 of RFC 7540. */
  datatype SettingId =
    | HeaderTableSize | EnablePush | MaxConcurrentStreams
    | InitialWindowSize | MaxFrameSize | MaxHeaderListSize
  {
    function Code(): (c: nat)
      ensures 1 <= c <= 6
    {
      match this
      case HeaderTableSize => 0x1
      case EnablePush => 0x2
      case MaxConcurrentStreams => 0x3
      case InitialWindowSize => 0x4
      case MaxFrameSize => 0x5
      case MaxHeaderListSize => 0x6
    }
  }

  /** Distinct settings are sent under distinct codes. */
  lemma CodeInjective(a: SettingId, b: SettingId)
    ensures a.Code() == b.Code() ==> a == b
  {
  }

  datatype Setting = Setting(id: SettingId, val: nat)

  /** The transport an address is bound to.
      Plain: the HTTP library's transport over the configured dialer.
      Http1Tls: HTTP/1.x whose TLS connections come from the fingerprinted dial.
      Http2: HTTP/2 whose connections come from the fingerprinted dial, with the
      settings it announces and its flow-control parameters. */
  datatype Transport =
    | Plain(dialer: Dialer, disableKeepAlives: bool)
    | Http1Tls
    | Http2(settings: seq<Setting>, initialWindowSize: nat, headerTableSize: nat, defaultPushHandler: bool)

  /** The HTTP/2 transport built after "h2" is negotiated. */
  const BrowserHttp2: Transport := Http2(
    [Setting(MaxConcurrentStreams, 1000), Setting(MaxFrameSize, 16384), Setting(MaxHeaderListSize, 262144)],
    6291456, 65536, true)

  /** A setting value allowed by section 6.5.2 of RFC 7540 (values are 32 bits). */
  predicate SettingPermitted(s: Setting) {
    && s.val < 0x1_0000_0000
    && match s.id
       case EnablePush => s.val <= 1
       case InitialWindowSize => s.val <= 0x7FFF_FFFF
       case MaxFrameSize => 0x4000 <= s.val <= 0xFF_FFFF
       case _ => true
  }

  /** An HTTP/2 transport whose announced settings are distinct and permitted,
      and whose window and header-table parameters fit the same bounds. */
  predicate WithinRfc7540(t: Transport)
    requires t.Http2?
  {
    && (forall i, j :: 0 <= i < j < |t.settings| ==> t.settings[i].id != t.settings[j].id)
    && (forall i :: 0 <= i < |t.settings| ==> SettingPermitted(t.settings[i]))
    && SettingPermitted(Setting(InitialWindowSize, t.initialWindowSize))
    && SettingPermitted(Setting(HeaderTableSize, t.headerTableSize))
  }

  /** Identity of a raw network connection handed out by the dialer. */
  type RawConn = nat

  /** The compiled ClientHello specification, opaque. */
  datatype ClientHelloSpec = ClientHelloSpec(id: nat)

  /** A handshaked fingerprinted TLS connection: the raw connection it wraps,
      the server name it was opened for, the specification applied, and the
      protocol ALPN selected. */
  datatype TlsConn = TlsConn(raw: RawConn, serverName: string, spec: ClientHelloSpec, negotiatedProtocol: string)

  /** What the foreign collaborators answer during one fingerprinted dial:
      the raw dial, compiling the client's JA3 string, applying the preset,
      the handshake (None when it succeeds) and the negotiated protocol. */
  datatype DialEnv = DialEnv(
    dial: Result<RawConn, string>,
    compiled: Result<ClientHelloSpec, string>,
    preset: Option<string>,
    handshake: Option<string>,
    alpn: string)

  /** The handshake failure text that marks a TLS 1.3 curve-preference mismatch. */
  const UnsupportedCurve: string := "tls: CurvePreferences includes unsupported curve"

  const RetryPrefix: string := "conn.Handshake() error " + "for tls 1.3 (please retry request): "
  const HandshakePrefix: string := "uTlsConn.Handshake() error: "

  /** The errors a round trip can end with. The dial, JA3 and preset errors are
      the collaborators' own, returned unchanged. */
  datatype Error =
    | DialFailed(msg: string)
    | SpecInvalid(msg: string)
    | PresetFailed(msg: string)
    | RetryableHandshake(cause: string)
    | HandshakeFailed(cause: string)
    | InvalidScheme(scheme: string)
  {
    /** The text of the error as the round tripper formats it. */
    function Message(): string {
      match this
      case DialFailed(m) => m
      case SpecInvalid(m) => m
      case PresetFailed(m) => m
      case RetryableHandshake(c) => RetryPrefix + c
      case HandshakeFailed(c) => HandshakePrefix + c
      case InvalidScheme(s) => "invalid URL scheme: [" + s + "]"
    }
  }

  /** The two handshake messages can always be told apart by their text. */
  lemma HandshakeMessagesDiffer(c: string, d: string)
    ensures RetryableHandshake(c).Message() != HandshakeFailed(d).Message()
  {
    assert (RetryPrefix + c)[0] == 'c';
    assert (HandshakePrefix + d)[0] == 'u';
  }

  /** The cookie record the round tripper hands to the request, every
      attribute copied across. */
  function ToHttpCookie(c: Cookie): (h: HttpCookie)
    ensures FromHttpCookie(h) == c
    ensures h.sameSite == 0
  {
    HttpCookie(c.name, c.value, c.path, c.domain, c.expires, c.rawExpires, c.maxAge,
               c.httpOnly, c.secure, c.raw, c.unparsed, 0)
  }

  /** The client cookie an HTTP cookie record carries (drops `sameSite`). */
  function FromHttpCookie(h: HttpCookie): Cookie {
    Cookie(h.name, h.value, h.path, h.domain, h.expires, h.rawExpires, h.maxAge,
           h.httpOnly, h.secure, h.raw, h.unparsed)
  }

  /** The cookie records for a list of configured cookies, in list order. */
  function AttachAll(cs: seq<Cookie>): (hs: seq<HttpCookie>)
    ensures |hs| == |cs|
    ensures forall i :: 0 <= i < |cs| ==> hs[i] == ToHttpCookie(cs[i])
  {
    if cs == [] then [] else [ToHttpCookie(cs[0])] + AttachAll(cs[1..])
  }
}
