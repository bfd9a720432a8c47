/**
 * The request handler that redirects a request across http and https
 * (`SwitchProtocolRequestHandler`): its constructor checks, the redirect URL it builds
 * (`scheme://host[:port]path[?query]`, the generic URI shape of section 3 of RFC 3986),
 * the choice of port (the default ports 80 and 443 of sections 2.7.1 and 2.7.2 of RFC 7230
 * are left out of the URL) and the static decision whether a switch is needed at all.
 */
module SwitchProtocol {
  import opened Wrappers
  import opened JavaText

  /** The protocols a page may ask for. */
  datatype Protocol = Http | Https | PreserveCurrent

  /** `protocol.toString().toLowerCase()`: the URL scheme named by a protocol. */
  function SchemeName(p: Protocol): (s: string)
    ensures ':' !in s && |s| >= 4
  {
    match p
    case Http => "http"
    case Https => "https"
    case PreserveCurrent => "preserve_current"
  }

  /** An opaque reference to the request handler a switch redirects to. */
  datatype TargetHandler = TargetHandler(id: nat)

  /**
   * A constructed handler: the protocol to switch to and the handler to redirect to,
   * `None` to replay the current URL.
   */
  datatype SwitchProtocolRequestHandler = SwitchProtocolRequestHandler(protocol: Protocol, target: Option<TargetHandler>)

  /** What the constructor guarantees of every handler it builds. */
  predicate Valid(h: SwitchProtocolRequestHandler) {
    h.protocol == Http || h.protocol == Https
  }

  datatype IllegalArgumentException = IllegalArgumentException(message: string)

  const NullProtocolMessage := "Argument 'protocol' may not be null."
  const PreserveCurrentMessage := "Argument 'protocol' may not have value 'PRESERVE_CURRENT'."

  /** The two-argument constructor; the one-argument one passes `None` as the target. */
  function NewHandler(protocol: Option<Protocol>, target: Option<TargetHandler>)
    : (r: Result<SwitchProtocolRequestHandler, IllegalArgumentException>)
    ensures protocol.None? ==> r == Failure(IllegalArgumentException(NullProtocolMessage))
    ensures protocol == Some(PreserveCurrent) ==> r == Failure(IllegalArgumentException(PreserveCurrentMessage))
    ensures r.Success? <==> protocol == Some(Http) || protocol == Some(Https)
    ensures r.Success? ==> Valid(r.value) && r.value.protocol == protocol.value && r.value.target == target
  {
    match protocol
    case None => Failure(IllegalArgumentException(NullProtocolMessage))
    case Some(PreserveCurrent) => Failure(IllegalArgumentException(PreserveCurrentMessage))
    case Some(p) => Success(SwitchProtocolRequestHandler(p, target))
  }

  /** The parts of the servlet request the handler reads. */
  datatype HttpServletRequest = HttpServletRequest(
    scheme: string,
    serverName: string,
    requestUri: string,
    queryString: Option<string>)

  /** The application's configured ports. */
  datatype HttpsConfig = HttpsConfig(httpPort: Int32, httpsPort: Int32)

  /** What follows the host: `":" + port`, or nothing. */
  function PortText(port: Option<Int32>): string {
    match port
    case None => ""
    case Some(p) => ":" + IntToString(p)
  }

  /** What follows the request URI: `"?" + query`, or nothing. */
  function QueryText(query: Option<string>): string {
    match query
    case None => ""
    case Some(q) => "?" + q
  }

  /** The text up to and including the host: `protocol + "://" + serverName`. */
  function Authority(protocol: string, request: HttpServletRequest): string {
    protocol + "://" + request.serverName
  }

  /** The redirect URL for a protocol, an optional port and a request. */
  function Url(protocol: string, port: Option<Int32>, request: HttpServletRequest): string {
    Authority(protocol, request) + PortText(port) + request.requestUri + QueryText(request.queryString)
  }

  /** `getUrl`: builds the redirect URL piece by piece, as the string builder does. */
  method GetUrl(protocol: string, port: Option<Int32>, request: HttpServletRequest) returns (url: string)
    ensures url == Url(protocol, port, request)
  {
    var result := "";
    result := result + protocol;
    result := result + "://";
    result := result + request.serverName;
    assert result == Authority(protocol, request);
    if port.Some? {
      result := result + ":";
      result := result + IntToString(port.value);
    }
    assert result == Authority(protocol, request) + PortText(port);
    result := result + request.requestUri;
    if request.queryString.Some? {
      result := result + "?";
      result := result + request.queryString.value;
    }
    url := result;
  }

  /** The port `respond` puts into the URL: none when it is the default for the protocol. */
  function RedirectPort(protocol: Protocol, config: HttpsConfig): (port: Option<Int32>)
    ensures port.None? <==>
      (protocol == Http && config.httpPort == 80) ||
      (protocol == Https && config.httpsPort == 443) ||
      protocol == PreserveCurrent
    ensures port.Some? && protocol == Http ==> port.value == config.httpPort
    ensures port.Some? && protocol == Https ==> port.value == config.httpsPort
  {
    match protocol
    case Http => if config.httpPort != 80 then Some(config.httpPort) else None
    case Https => if config.httpsPort != 443 then Some(config.httpsPort) else None
    case PreserveCurrent => None
  }

  /**
   * `respond`: the location the handler redirects to. With no target it rewrites the
   * current request's URL to the handler's protocol; with one it asks the URL mapper
   * (`urlFor`) for the target's URL.
   */
  method Respond(h: SwitchProtocolRequestHandler, config: HttpsConfig, request: HttpServletRequest,
                 urlFor: TargetHandler -> string)
    returns (location: string)
    ensures h.target.None? ==> location == Url(SchemeName(h.protocol), RedirectPort(h.protocol, config), request)
    ensures h.target.Some? ==> location == urlFor(h.target.value)
  {
    var port: Option<Int32> := None;
    if h.protocol == Http {
      if config.httpPort != 80 {
        port := Some(config.httpPort);
      }
    } else if h.protocol == Https {
      if config.httpsPort != 443 {
        port := Some(config.httpsPort);
      }
    }
    if h.target.None? {
      location := GetUrl(SchemeName(h.protocol), port, request);
    } else {
      location := urlFor(h.target.value);
    }
  }

  /**
   * `requireProtocol`: a handler that switches to `protocol`, or `None` when no switch is
   * needed; the one-argument overload passes `None` as the target.
   */
  function RequireProtocol(protocol: Option<Protocol>, target: Option<TargetHandler>, request: HttpServletRequest)
    : (r: Option<SwitchProtocolRequestHandler>)
    ensures r.None? <==>
      protocol.None? || protocol.value == PreserveCurrent || request.scheme == SchemeName(protocol.value)
    ensures r.Some? ==> NewHandler(protocol, target) == Success(r.value)
    ensures r.Some? ==> Valid(r.value) && r.value.protocol == protocol.value && r.value.target == target
  {
    if protocol.None? || protocol.value == PreserveCurrent || request.scheme == SchemeName(protocol.value) then
      None
    else
      Some(NewHandler(protocol, target).value)
  }

  // ----- Properties of the redirect URL -----

  /** The URL starts with `protocol + "://" + serverName`. */
  lemma UrlStartsWithAuthority(protocol: string, port: Option<Int32>, request: HttpServletRequest)
    ensures |Authority(protocol, request)| <= |Url(protocol, port, request)|
    ensures Url(protocol, port, request)[..|Authority(protocol, request)|] == Authority(protocol, request)
    ensures Url(protocol, port, request)[..|protocol| + 3] == protocol + "://"
  {
  }

  /** What follows the host in the URL: the port text, the request URI and the query text. */
  lemma UrlAfterAuthority(protocol: string, port: Option<Int32>, request: HttpServletRequest)
    ensures |Authority(protocol, request)| <= |Url(protocol, port, request)|
    ensures Url(protocol, port, request)[|Authority(protocol, request)|..]
         == PortText(port) + (request.requestUri + QueryText(request.queryString))
  {
  }

  /**
   * Right after the host comes `":"` followed by the port exactly when there is a port,
   * for request URIs that do not themselves start with `':'` (a servlet request URI starts
   * with `'/'`).
   */
  lemma UrlPortAfterHost(protocol: string, port: Option<Int32>, request: HttpServletRequest)
    requires request.requestUri == [] || request.requestUri[0] != ':'
    ensures var rest := Url(protocol, port, request)[|Authority(protocol, request)|..];
      (|rest| > 0 && rest[0] == ':') <==> port.Some?
    ensures port.Some? ==>
      var p := ":" + IntToString(port.value);
      Url(protocol, port, request)[|Authority(protocol, request)|..][..|p|] == p
  {
  }

  lemma CancelSuffix(x: string, y: string, t: string)
    requires x + t == y + t
    ensures x == y
  {
    assert |x| == |y|;
    assert x == (x + t)[..|x|];
    assert y == (y + t)[..|y|];
  }

  lemma {:induction false} PortTextInjective(p1: Option<Int32>, p2: Option<Int32>)
    requires PortText(p1) == PortText(p2)
    ensures p1 == p2
  {
    if p1.Some? && p2.Some? {
      assert IntToString(p1.value) == PortText(p1)[1..];
      assert IntToString(p2.value) == PortText(p2)[1..];
      IntToStringInjective(p1.value, p2.value);
    }
  }

  /** Two redirect URLs that differ only in the port differ as texts. */
  lemma {:induction false} UrlDeterminesPort(protocol: string, p1: Option<Int32>, p2: Option<Int32>, request: HttpServletRequest)
    requires Url(protocol, p1, request) == Url(protocol, p2, request)
    ensures p1 == p2
  {
    var tail := request.requestUri + QueryText(request.queryString);
    UrlAfterAuthority(protocol, p1, request);
    UrlAfterAuthority(protocol, p2, request);
    CancelSuffix(PortText(p1), PortText(p2), tail);
    PortTextInjective(p1, p2);
  }

  /**
   * Without a query string the URL ends with the request URI; with one it ends with
   * `"?" + query`.
   */
  lemma UrlEnding(protocol: string, port: Option<Int32>, request: HttpServletRequest)
    ensures var u := Url(protocol, port, request);
      match request.queryString
      case None => |request.requestUri| <= |u| && u[|u| - |request.requestUri|..] == request.requestUri
      case Some(q) => |q| + 1 <= |u| && u[|u| - |q| - 1..] == "?" + q
  {
  }

  /**
   * `"?" + query` is appended only when there is a query string: two requests that differ
   * only in their query string give different URLs.
   */
  lemma {:induction false} UrlDeterminesQuery(protocol: string, port: Option<Int32>, q1: Option<string>, q2: Option<string>,
                                              request: HttpServletRequest)
    requires Url(protocol, port, request.(queryString := q1)) == Url(protocol, port, request.(queryString := q2))
    ensures q1 == q2
  {
    var head := Authority(protocol, request) + PortText(port) + request.requestUri;
    assert Url(protocol, port, request.(queryString := q1)) == head + QueryText(q1);
    assert Url(protocol, port, request.(queryString := q2)) == head + QueryText(q2);
    assert QueryText(q1) == (head + QueryText(q1))[|head|..];
    assert QueryText(q2) == (head + QueryText(q2))[|head|..];
    if q1.Some? && q2.Some? {
      assert q1.value == QueryText(q1)[1..];
      assert q2.value == QueryText(q2)[1..];
    }
  }

  // ----- Properties of the redirect -----

  /** The scheme of a URL: the text before its first `':'`. */
  function SchemeOf(url: string): (s: string)
    ensures |s| <= |url| && s == url[..|s|] && ':' !in s
  {
    if url == [] || url[0] == ':' then [] else [url[0]] + SchemeOf(url[1..])
  }

  lemma {:induction false} SchemeOfPrefix(scheme: string, rest: string)
    requires ':' !in scheme
    ensures SchemeOf(scheme + ":" + rest) == scheme
  {
    if scheme != [] {
      assert (scheme + ":" + rest)[1..] == scheme[1..] + ":" + rest;
      SchemeOfPrefix(scheme[1..], rest);
    }
  }

  /**
   * With no target, a constructed handler redirects to a URL whose scheme is `"http"` or
   * `"https"`, the lower-cased name of its protocol.
   */
  lemma RedirectScheme(h: SwitchProtocolRequestHandler, config: HttpsConfig, request: HttpServletRequest)
    requires Valid(h)
    ensures var u := Url(SchemeName(h.protocol), RedirectPort(h.protocol, config), request);
      SchemeOf(u) == SchemeName(h.protocol) && SchemeOf(u) in {"http", "https"}
  {
    var s := SchemeName(h.protocol);
    var u := Url(s, RedirectPort(h.protocol, config), request);
    var rest := "//" + request.serverName + PortText(RedirectPort(h.protocol, config))
      + request.requestUri + QueryText(request.queryString);
    assert u == s + ":" + rest;
    SchemeOfPrefix(s, rest);
  }

  /**
   * A switch settles: once the browser follows the redirect, the redirected request has the
   * requested scheme and asking for the same protocol again needs no further switch.
   */
  lemma RedirectSettles(h: SwitchProtocolRequestHandler, config: HttpsConfig, request: HttpServletRequest,
                        redirected: HttpServletRequest)
    requires Valid(h) && h.target.None?
    requires redirected.scheme == SchemeOf(Url(SchemeName(h.protocol), RedirectPort(h.protocol, config), request))
    ensures RequireProtocol(Some(h.protocol), h.target, redirected) == None
  {
    RedirectScheme(h, config, request);
  }

  /** A handler that `requireProtocol` builds switches away from the request's scheme. */
  lemma RequireProtocolSwitches(protocol: Option<Protocol>, target: Option<TargetHandler>, request: HttpServletRequest)
    requires RequireProtocol(protocol, target, request).Some?
    ensures var h := RequireProtocol(protocol, target, request).value;
      SchemeName(h.protocol) != request.scheme && SchemeName(h.protocol) in {"http", "https"}
  {
  }
}
