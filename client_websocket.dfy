/**
 * WebSocket dial address (src/client/websocket.rs, `connect_ws`).
 *
 * Turning the caller's URL into a request is a library call, so its outcome
 * is the input here: either the parsed URI or the library's error. Only the
 * choice of host and port and the address text are modelled; the TCP
 * connection and the handshake are not.
 */
module ClientWebsocket {
  import opened Wrappers
  import opened Num

  /** The parts of the request URI that `connect_ws` reads. */
  datatype Uri = Uri(scheme: Option<string>, host: Option<string>, port: Option<U16>)

  /** `tungstenite::error::UrlError`, the two cases raised here. */
  datatype UrlError = NoHostName | UnsupportedUrlScheme

  /** Why `connect_ws` gives up before dialling. */
  datatype ConnectError<E> = RequestError(cause: E) | Url(reason: UrlError)

  /** The default ports of section 3 of RFC 6455: 443 for "wss", 80 for "ws", none for any other scheme. */
  function DefaultPort(scheme: Option<string>): (p: Option<U16>)
    ensures p == Some(443) <==> scheme == Some("wss")
    ensures p == Some(80) <==> scheme == Some("ws")
    ensures p.None? <==> scheme != Some("wss") && scheme != Some("ws")
  {
    if scheme == Some("wss") then Some(443)
    else if scheme == Some("ws") then Some(80)
    else None
  }

  /** `port_u16().or_else(...)`: an explicit port as written, else the scheme's default. */
  function ResolvePort(uri: Uri): (p: Option<U16>)
    ensures uri.port.Some? ==> p == uri.port
    ensures uri.port.None? ==> p == DefaultPort(uri.scheme)
  {
    if uri.port.Some? then uri.port else DefaultPort(uri.scheme)
  }

  /** `format!("{}:{}", domain, port)`. */
  function Addr(host: string, port: U16): string
  {
    host + ":" + ShowNat(port)
  }

  /**
   * The address `connect_ws` dials: the host is checked first, then the
   * port; a URI without a host fails with `NoHostName` whatever its port.
   */
  function DialAddr<E>(request: Result<Uri, E>): (r: Result<string, ConnectError<E>>)
    ensures request.Err? ==> r == Err(RequestError(request.error))
    ensures request.Ok? && request.value.host.None? ==> r == Err(Url(NoHostName))
    ensures request.Ok? && request.value.host.Some? && ResolvePort(request.value).None? ==>
              r == Err(Url(UnsupportedUrlScheme))
    ensures request.Ok? && request.value.host.Some? && ResolvePort(request.value).Some? ==>
              r == Ok(Addr(request.value.host.value, ResolvePort(request.value).value))
  {
    match request
    case Err(e) => Err(RequestError(e))
    case Ok(uri) =>
      if uri.host.None? then Err(Url(NoHostName))
      else
        match ResolvePort(uri)
        case None => Err(Url(UnsupportedUrlScheme))
        case Some(port) => Ok(Addr(uri.host.value, port))
  }

  /** A "ws"/"wss" URI without a port is dialled on 80/443; any other scheme without a port is refused. */
  lemma DialAddrDefaults<E>(host: string, scheme: Option<string>)
    ensures DialAddr<E>(Ok(Uri(Some("wss"), Some(host), None))) == Ok(Addr(host, 443))
    ensures DialAddr<E>(Ok(Uri(Some("ws"), Some(host), None))) == Ok(Addr(host, 80))
    ensures scheme != Some("ws") && scheme != Some("wss") ==>
              DialAddr<E>(Ok(Uri(scheme, Some(host), None))) == Err(Url(UnsupportedUrlScheme))
  {
  }

  /**
   * The address splits back into its parts: the host, then the one ':' that
   * follows it, then the decimal digits of the port.
   */
  lemma AddrSplits(host: string, port: U16)
    ensures var a := Addr(host, port);
            |a| > |host| + 1 && a[..|host|] == host && a[|host|] == ':'
            && AllDigits(a[|host| + 1..]) && DigitsValue(a[|host| + 1..]) == port
  {
    var a := Addr(host, port);
    assert a[|host| + 1..] == ShowNat(port);
    assert a[..|host|] == host;
    ShowNatRoundTrip(port);
  }

  /** Different ports on one host give different addresses. */
  lemma AddrInjective(host: string, p: U16, q: U16)
    requires Addr(host, p) == Addr(host, q)
    ensures p == q
  {
    AddrSplits(host, p);
    AddrSplits(host, q);
  }
}
