/**
 * `getProxy` and the closures it installs on the reverse proxy: choosing
 * between the direct handler and the proxy, the Director that rewrites the
 * outbound request, and `ModifyResponse`.
 */
module Proxy {
  import opened Wrappers
  import opened Headers
  import opened Response
  import opened Messages
  import WebSocket
  import DirectResponse

  // -----------------------------------------------------------------------
  // Configuration and upstream
  // -----------------------------------------------------------------------

  /** `cfg.Tls`; `clientCertificate` stands for `Tls.ClientCertificate != nil`. */
  datatype TlsConfig = TlsConfig(clientCertificate: bool)

  /** `cfg.Http.Auth.Sigv4`; the secret is named, and fetched on every request. */
  datatype SigV4Config = SigV4Config(accessKeyId: string, secretName: string, service: string, region: string)

  /** `cfg.Http`: the direct response (`Response.Direct`) and the signing block (`Auth.Sigv4`), when set. */
  datatype HttpConfig = HttpConfig(direct: Option<DirectResponse.DirectSpec>, sigv4: Option<SigV4Config>)

  /** The route's `ServiceConfig`; `clientCertificate` stands for `ClientCertificate != nil`. */
  datatype Config = Config(clientCertificate: bool, tls: Option<TlsConfig>, http: Option<HttpConfig>)

  /** The upstream URL; `text` is what `URL.String()` returns, taken as given. */
  datatype Url = Url(scheme: string, host: string, text: string)

  datatype Upstream = Upstream(url: Url, hostPort: string, isUser: bool)

  function DirectConfig(cfg: Option<Config>): Option<DirectResponse.DirectSpec>
  {
    if cfg.Some? && cfg.value.http.Some? then cfg.value.http.value.direct else None
  }

  predicate SigV4Configured(cfg: Option<Config>)
  {
    cfg.Some? && cfg.value.http.Some? && cfg.value.http.value.sigv4.Some?
  }

  predicate ClientCertificateRequired(cfg: Option<Config>)
  {
    cfg.Some? && (cfg.value.clientCertificate || (cfg.value.tls.Some? && cfg.value.tls.value.clientCertificate))
  }

  // -----------------------------------------------------------------------
  // Handler selection
  // -----------------------------------------------------------------------

  /** What `getProxy` returns: the direct handler, or a reverse proxy bound to an upstream and its transport. */
  datatype Handler<T> = DirectHandler(spec: DirectResponse.DirectSpec) | ReverseProxy(upstream: Upstream, transport: T)

  /** A collaborator `getProxy` consults. */
  datatype Lookup = UpstreamLookup | RoundTripperLookup

  /** The handler or the propagated error, with the lookups made to get there, in order. */
  datatype Selection<T> = Selection(handler: Result<Handler<T>, string>, lookups: seq<Lookup>)

  /**
   * `getProxy`: `upstream` is what `lbManager.GetUpstream` answers and
   * `roundTripper` what `getRoundTripper` answers for an upstream.
   */
  function GetProxy<T>(cfg: Option<Config>, upstream: Result<Upstream, string>,
                       roundTripper: Upstream -> Result<T, string>): (s: Selection<T>)
    ensures DirectConfig(cfg).Some? ==> s == Selection(Ok(DirectHandler(DirectConfig(cfg).value)), [])
    ensures DirectConfig(cfg).None? ==> 1 <= |s.lookups| && s.lookups[0] == UpstreamLookup
    ensures RoundTripperLookup in s.lookups ==> upstream.Ok?
    ensures s.handler.Err? ==>
      && DirectConfig(cfg).None?
      && (upstream.Err? ==> s.handler.error == upstream.error)
      && (upstream.Ok? ==> roundTripper(upstream.value) == Err(s.handler.error))
    ensures s.handler.Ok? && s.handler.value.ReverseProxy? ==>
      && upstream.Ok? && s.handler.value.upstream == upstream.value
      && roundTripper(upstream.value) == Ok(s.handler.value.transport)
    ensures DirectConfig(cfg).None? && upstream.Err? ==> s == Selection(Err(upstream.error), [UpstreamLookup])
    ensures DirectConfig(cfg).None? && upstream.Ok? ==>
      && s.lookups == [UpstreamLookup, RoundTripperLookup]
      && (s.handler.Err? <==> roundTripper(upstream.value).Err?)
      && (s.handler.Ok? ==> s.handler.value.ReverseProxy?)
  {
    if DirectConfig(cfg).Some? then Selection(Ok(DirectHandler(DirectConfig(cfg).value)), [])
    else match upstream
      case Err(e) => Selection(Err(e), [UpstreamLookup])
      case Ok(up) =>
        match roundTripper(up)
        case Err(e) => Selection(Err(e), [UpstreamLookup, RoundTripperLookup])
        case Ok(t) => Selection(Ok(ReverseProxy(up, t)), [UpstreamLookup, RoundTripperLookup])
  }

  // -----------------------------------------------------------------------
  // The Director's pure steps
  // -----------------------------------------------------------------------

  const KnownSchemes: set<string> := {"https", "http", "ws", "grpc", "h2c", "wss"}

  /**
   * The scheme switch: the upstream's scheme is a protocol label; the wire
   * scheme is https for https and wss, http for http, ws, grpc and h2c, and
   * for any other label https exactly when a client certificate is configured.
   */
  function WireScheme(scheme: string, cfg: Option<Config>): (r: string)
    ensures r == "http" || r == "https"
    ensures scheme == "https" || scheme == "wss" ==> r == "https"
    ensures scheme == "http" || scheme == "ws" || scheme == "grpc" || scheme == "h2c" ==> r == "http"
    ensures scheme !in KnownSchemes ==> (r == "https" <==> ClientCertificateRequired(cfg))
  {
    if scheme == "https" || scheme == "http" then scheme
    else if scheme == "ws" then "http"
    else if scheme == "grpc" || scheme == "h2c" then "http"
    else if scheme == "wss" then "https"
    else if ClientCertificateRequired(cfg) then "https"
    else "http"
  }

  /**
   * `strings.ReplaceAll(q, ";", "&")`: the same length, every ';' now '&',
   * every other character where it was.
   */
  function ReplaceSemicolons(q: string): (r: string)
    ensures |r| == |q|
    ensures forall i :: 0 <= i < |q| ==> r[i] == if q[i] == ';' then '&' else q[i]
    ensures ';' !in r
  {
    if q == [] then []
    else [if q[0] == ';' then '&' else q[0]] + ReplaceSemicolons(q[1..])
  }

  /** Rewriting twice is rewriting once. */
  lemma ReplaceSemicolonsIdempotent(q: string)
    ensures ReplaceSemicolons(ReplaceSemicolons(q)) == ReplaceSemicolons(q)
  {
    var r := ReplaceSemicolons(q);
    var rr := ReplaceSemicolons(r);
    assert |rr| == |r|;
    forall i | 0 <= i < |r| ensures rr[i] == r[i] {
      assert r[i] == if q[i] == ';' then '&' else q[i];
    }
  }

  /** The headers the Director removes for a service that is not managed. */
  const ForwardingKeys: set<string> := {"Forwarded", "X-Forwarded-For", "X-Forwarded-Host", "X-Forwarded-Proto"}

  /**
   * What the SigV4 signer writes into the request, taken as given: the
   * `Authorization` and `X-Amz-Date` headers, the query string re-encoded
   * in its canonical form and the `Host` with any default port removed.
   */
  datatype Signature = Signature(authorization: string, amzDate: string, rawQuery: string, host: string)

  /** Signing changes the request only when it is configured, the secret was fetched and the signer succeeded. */
  predicate Signs(cfg: Option<Config>, secret: Result<string, string>, signed: Result<Signature, string>)
  {
    SigV4Configured(cfg) && secret.Ok? && signed.Ok?
  }

  function WithDefaultUserAgent(h: Header): Header
  {
    if "User-Agent" !in h then Set(h, "User-Agent", Product) else h
  }

  function WithoutForwarding(h: Header, isManagedSvc: bool): Header
  {
    if isManagedSvc then h
    else Del(Del(Del(Del(h, "Forwarded"), "X-Forwarded-For"), "X-Forwarded-Host"), "X-Forwarded-Proto")
  }

  function WithUpstreamOrigin(h: Header, origin: string): Header
  {
    if Get(h, "Origin") != "" then Set(h, "Origin", origin) else h
  }

  /**
   * The signing step: attempted only when SigV4 is configured; it changes
   * the headers only when the secret was fetched and the signer succeeded.
   */
  function WithSignature(h: Header, cfg: Option<Config>, secret: Result<string, string>,
                         signed: Result<Signature, string>): Header
  {
    if Signs(cfg, secret, signed) then
      Set(Set(h, "X-Amz-Date", signed.value.amzDate), "Authorization", signed.value.authorization)
    else h
  }

  /** The headers up to and including the Origin rewrite, before signing. */
  function UnsignedHeaders(h: Header, up: Upstream, isManagedSvc: bool): Header
  {
    WithUpstreamOrigin(WithoutForwarding(WebSocket.Fixed(WithDefaultUserAgent(h)), isManagedSvc), up.url.text)
  }

  /** The outbound headers: the header edits of the Director, in its order, signing last. */
  function OutboundHeaders(h: Header, up: Upstream, cfg: Option<Config>, isManagedSvc: bool,
                           secret: Result<string, string>, signed: Result<Signature, string>): Header
  {
    WithSignature(UnsignedHeaders(h, up, isManagedSvc), cfg, secret, signed)
  }

  // -----------------------------------------------------------------------
  // The Director
  // -----------------------------------------------------------------------

  /**
   * The Director closure. `isManagedSvc` is what `IsManagedService` answers
   * for the route's service, `http2Upstream` what `isHTTP2RequestUpstream`
   * answers at that point, `secret` what the secret store answers for the
   * configured secret name and `signed` what the signer produces with it.
   * A signing failure ends the Director like its normal end: the request is
   * still sent, unsigned.
   */
  method Director(outReq: Request, up: Upstream, cfg: Option<Config>, isManagedSvc: bool, http2Upstream: bool,
                  secret: Result<string, string>, signed: Result<Signature, string>)
    modifies outReq
    ensures outReq.scheme == WireScheme(up.url.scheme, cfg)
    ensures outReq.host == if Signs(cfg, secret, signed) then signed.value.host else up.url.host
    ensures outReq.urlHost == if up.isUser then up.hostPort else up.url.host
    ensures outReq.rawQuery ==
      if Signs(cfg, secret, signed) then signed.value.rawQuery else ReplaceSemicolons(old(outReq.rawQuery))
    ensures outReq.requestUri == ""
    ensures http2Upstream ==> outReq.proto == "HTTP/2" && outReq.protoMajor == 2 && outReq.protoMinor == 0
    ensures !http2Upstream ==> outReq.proto == "HTTP/1.1" && outReq.protoMajor == 1 && outReq.protoMinor == 1
    ensures outReq.header == OutboundHeaders(old(outReq.header), up, cfg, isManagedSvc, secret, signed)
    ensures outReq.verb == old(outReq.verb) && outReq.path == old(outReq.path)
  {
    RewriteTarget(outReq, up, cfg);
    RewriteHeaders(outReq, up, cfg, isManagedSvc, http2Upstream, secret, signed);
  }

  /**
   * Director steps from the default User-Agent on, in their order: the
   * header edits, with the protocol pinned between the WebSocket repair and
   * the removal of the forwarding headers.
   */
  method RewriteHeaders(outReq: Request, up: Upstream, cfg: Option<Config>, isManagedSvc: bool, http2Upstream: bool,
                        secret: Result<string, string>, signed: Result<Signature, string>)
    modifies outReq`header, outReq`proto, outReq`protoMajor, outReq`protoMinor, outReq`rawQuery, outReq`host
    ensures http2Upstream ==> outReq.proto == "HTTP/2" && outReq.protoMajor == 2 && outReq.protoMinor == 0
    ensures !http2Upstream ==> outReq.proto == "HTTP/1.1" && outReq.protoMajor == 1 && outReq.protoMinor == 1
    ensures outReq.header == OutboundHeaders(old(outReq.header), up, cfg, isManagedSvc, secret, signed)
    ensures outReq.rawQuery == if Signs(cfg, secret, signed) then signed.value.rawQuery else old(outReq.rawQuery)
    ensures outReq.host == if Signs(cfg, secret, signed) then signed.value.host else old(outReq.host)
  {
    SetDefaultUserAgent(outReq);
    WebSocket.FixWebSocketHeaders(outReq);
    PinProtocol(outReq, http2Upstream);
    StripForwardingHeaders(outReq, isManagedSvc);
    RewriteOrigin(outReq, up.url.text);
    Sign(outReq, cfg, secret, signed);
  }

  /** Director steps on the URL: scheme, dial address, host, query separators, and no request URI. */
  method RewriteTarget(outReq: Request, up: Upstream, cfg: Option<Config>)
    modifies outReq`scheme, outReq`host, outReq`urlHost, outReq`rawQuery, outReq`requestUri
    ensures outReq.scheme == WireScheme(up.url.scheme, cfg)
    ensures outReq.host == up.url.host
    ensures outReq.urlHost == if up.isUser then up.hostPort else up.url.host
    ensures outReq.rawQuery == ReplaceSemicolons(old(outReq.rawQuery))
    ensures outReq.requestUri == ""
  {
    outReq.scheme := WireScheme(up.url.scheme, cfg);
    outReq.host := up.url.host;
    if up.isUser {
      outReq.urlHost := up.hostPort;
    } else {
      outReq.urlHost := up.url.host;
    }
    outReq.rawQuery := ReplaceSemicolons(outReq.rawQuery);
    outReq.requestUri := "";
  }

  /** Director step: the protocol the upstream is spoken to with. */
  method PinProtocol(outReq: Request, http2Upstream: bool)
    modifies outReq`proto, outReq`protoMajor, outReq`protoMinor
    ensures http2Upstream ==> outReq.proto == "HTTP/2" && outReq.protoMajor == 2 && outReq.protoMinor == 0
    ensures !http2Upstream ==> outReq.proto == "HTTP/1.1" && outReq.protoMajor == 1 && outReq.protoMinor == 1
  {
    if http2Upstream {
      outReq.proto, outReq.protoMajor, outReq.protoMinor := "HTTP/2", 2, 0;
    } else {
      outReq.proto, outReq.protoMajor, outReq.protoMinor := "HTTP/1.1", 1, 1;
    }
  }

  /** Director step: a request without any "User-Agent" key gets the product name. */
  method SetDefaultUserAgent(outReq: Request)
    modifies outReq`header
    ensures outReq.header == WithDefaultUserAgent(old(outReq.header))
  {
    if "User-Agent" !in outReq.header {
      outReq.header := Set(outReq.header, "User-Agent", Product);
    }
  }

  /** Director step: the forwarding headers go unless the service is managed. */
  method StripForwardingHeaders(outReq: Request, isManagedSvc: bool)
    modifies outReq`header
    ensures outReq.header == WithoutForwarding(old(outReq.header), isManagedSvc)
  {
    if !isManagedSvc {
      outReq.header := Del(outReq.header, "Forwarded");
      outReq.header := Del(outReq.header, "X-Forwarded-For");
      outReq.header := Del(outReq.header, "X-Forwarded-Host");
      outReq.header := Del(outReq.header, "X-Forwarded-Proto");
    }
  }

  /** Director step: a non-empty "Origin" becomes the upstream's URL. */
  method RewriteOrigin(outReq: Request, origin: string)
    modifies outReq`header
    ensures outReq.header == WithUpstreamOrigin(old(outReq.header), origin)
  {
    if Get(outReq.header, "Origin") != "" {
      outReq.header := Set(outReq.header, "Origin", origin);
    }
  }

  /**
   * Director step, the last: SigV4 signing when configured. A failed
   * secret fetch and a failed signature are both logged and end the
   * Director; neither stops the request from being sent.
   */
  method Sign(outReq: Request, cfg: Option<Config>, secret: Result<string, string>, signed: Result<Signature, string>)
    modifies outReq`header, outReq`rawQuery, outReq`host
    ensures outReq.header == WithSignature(old(outReq.header), cfg, secret, signed)
    ensures outReq.rawQuery == if Signs(cfg, secret, signed) then signed.value.rawQuery else old(outReq.rawQuery)
    ensures outReq.host == if Signs(cfg, secret, signed) then signed.value.host else old(outReq.host)
  {
    if SigV4Configured(cfg) {
      match secret {
        case Ok(_) =>
          match signed {
            case Ok(sig) =>
              outReq.header := Set(outReq.header, "X-Amz-Date", sig.amzDate);
              outReq.header := Set(outReq.header, "Authorization", sig.authorization);
              outReq.rawQuery := sig.rawQuery;
              outReq.host := sig.host;
            case Err(_) =>
              return;
          }
        case Err(_) =>
      }
    }
  }

  // -----------------------------------------------------------------------
  // What the outbound headers are
  // -----------------------------------------------------------------------

  /** The keys the Director may change: everything else passes through. */
  ghost predicate Untouched(k: string)
  {
    && WebSocket.OtherKey(k)
    && k !in ForwardingKeys
    && k != "User-Agent" && k != "Origin" && k != "Authorization" && k != "X-Amz-Date"
  }

  /** The default User-Agent touches neither "Connection" nor "Upgrade", so it cannot change the upgrade test. */
  lemma UserAgentKeepsUpgrade(h: Header)
    ensures WebSocket.IsWebSocketUpgrade(WithDefaultUserAgent(h)) == WebSocket.IsWebSocketUpgrade(h)
  {
    var h' := WithDefaultUserAgent(h);
    assert Values(h', "Connection") == Values(h, "Connection");
    assert Get(h', "Upgrade") == Get(h, "Upgrade");
  }

  /** "User-Agent" holds its old list when the key was present, even empty, and ["octelium"] when it was absent. */
  lemma OutboundUserAgent(h: Header, up: Upstream, cfg: Option<Config>, isManagedSvc: bool,
                          secret: Result<string, string>, signed: Result<Signature, string>)
    ensures var out := OutboundHeaders(h, up, cfg, isManagedSvc, secret, signed);
      "User-Agent" in out && out["User-Agent"] == if "User-Agent" in h then h["User-Agent"] else [Product]
  {
    var ua := WithDefaultUserAgent(h);
    WebSocket.OtherKeyByInitial("User-Agent");
    WebSocket.FixedKeepsOtherKey(ua, "User-Agent");
    TailKeepsKey(WebSocket.Fixed(ua), up.url.text, cfg, isManagedSvc, secret, signed, "User-Agent");
  }

  /**
   * For a service that is not managed the four forwarding headers are gone;
   * for a managed one each keeps its presence and its values.
   */
  lemma OutboundForwarding(h: Header, up: Upstream, cfg: Option<Config>, isManagedSvc: bool,
                           secret: Result<string, string>, signed: Result<Signature, string>, k: string)
    requires k in ForwardingKeys
    ensures var out := OutboundHeaders(h, up, cfg, isManagedSvc, secret, signed);
      && (!isManagedSvc ==> k !in out)
      && (isManagedSvc ==> (k in out <==> k in h) && (k in h ==> out[k] == h[k]))
  {
    ForwardingKeyApart(k);
    var ua := WithDefaultUserAgent(h);
    WebSocket.FixedKeepsOtherKey(ua, k);
    TailForwarding(WebSocket.Fixed(ua), up.url.text, cfg, isManagedSvc, secret, signed, k);
  }

  /** The steps after the repair drop a forwarding key for a service that is not managed, and keep it otherwise. */
  lemma TailForwarding(repaired: Header, origin: string, cfg: Option<Config>, isManagedSvc: bool,
                       secret: Result<string, string>, signed: Result<Signature, string>, k: string)
    requires k in ForwardingKeys
    ensures var out := WithSignature(WithUpstreamOrigin(WithoutForwarding(repaired, isManagedSvc), origin), cfg, secret, signed);
      && (!isManagedSvc ==> k !in out)
      && (isManagedSvc ==> (k in out <==> k in repaired) && (k in repaired ==> out[k] == repaired[k]))
  {
    ForwardingKeyApart(k);
    var stripped := WithoutForwarding(repaired, isManagedSvc);
    assert !isManagedSvc ==> k !in stripped;
  }

  /** A forwarding key is none of the other keys the Director edits. */
  lemma ForwardingKeyApart(k: string)
    requires k in ForwardingKeys
    ensures WebSocket.OtherKey(k)
    ensures k != "User-Agent" && k != "Origin" && k != "Authorization" && k != "X-Amz-Date"
  {
    assert k[0] == 'F' || k[2] == 'F';
    WebSocket.OtherKeyByInitial(k);
  }

  /** A handshake key, in either spelling, is none of the other keys the Director edits: it starts with 'S'. */
  lemma HandshakeKeyApart(k: string)
    requires k in WebSocket.CanonicalKeys || k in WebSocket.MixedCaseKeys
    ensures k !in ForwardingKeys && k != "User-Agent" && k != "Origin" && k != "Authorization" && k != "X-Amz-Date"
  {
    WebSocket.KeyShapes();
    assert k[0] == 'S';
  }

  /** The steps after the repair leave every key they do not name as the repair left it. */
  lemma TailKeepsKey(repaired: Header, origin: string, cfg: Option<Config>, isManagedSvc: bool,
                     secret: Result<string, string>, signed: Result<Signature, string>, k: string)
    requires k !in ForwardingKeys && k != "Origin" && k != "Authorization" && k != "X-Amz-Date"
    ensures var out := WithSignature(WithUpstreamOrigin(WithoutForwarding(repaired, isManagedSvc), origin), cfg, secret, signed);
      (k in out <==> k in repaired) && Values(out, k) == Values(repaired, k)
  {
    var stripped := WithoutForwarding(repaired, isManagedSvc);
    assert (k in stripped <==> k in repaired) && Values(stripped, k) == Values(repaired, k);
  }

  /** The steps after the repair leave a handshake key, in either spelling, as the repair left it. */
  lemma AfterRepairKeepsHandshakeKey(h: Header, up: Upstream, cfg: Option<Config>, isManagedSvc: bool,
                                     secret: Result<string, string>, signed: Result<Signature, string>, k: string)
    requires k in WebSocket.CanonicalKeys || k in WebSocket.MixedCaseKeys
    ensures var out := OutboundHeaders(h, up, cfg, isManagedSvc, secret, signed);
      var repaired := WebSocket.Fixed(WithDefaultUserAgent(h));
      (k in out <==> k in repaired) && Values(out, k) == Values(repaired, k)
  {
    HandshakeKeyApart(k);
    TailKeepsKey(WebSocket.Fixed(WithDefaultUserAgent(h)), up.url.text, cfg, isManagedSvc, secret, signed, k);
  }

  /**
   * On a WebSocket upgrade the five handshake headers leave with the
   * registered spelling and their inbound values (the empty list where
   * the inbound request lacked one), the canonical spelling gone.
   */
  lemma OutboundWebSocketUpgrade(h: Header, up: Upstream, cfg: Option<Config>, isManagedSvc: bool,
                                 secret: Result<string, string>, signed: Result<Signature, string>, n: nat)
    requires n < 5 && WebSocket.IsWebSocketUpgrade(h)
    ensures var out := OutboundHeaders(h, up, cfg, isManagedSvc, secret, signed);
      && WebSocket.CanonicalKeys[n] !in out
      && WebSocket.MixedCaseKeys[n] in out
      && out[WebSocket.MixedCaseKeys[n]] == Values(h, WebSocket.CanonicalKeys[n])
  {
    WebSocket.KeyShapes();
    var ua := WithDefaultUserAgent(h);
    UserAgentKeepsUpgrade(h);
    assert Values(ua, WebSocket.CanonicalKeys[n]) == Values(h, WebSocket.CanonicalKeys[n]);
    WebSocket.FixedMovesKey(ua, n);
    AfterRepairKeepsHandshakeKey(h, up, cfg, isManagedSvc, secret, signed, WebSocket.CanonicalKeys[n]);
    AfterRepairKeepsHandshakeKey(h, up, cfg, isManagedSvc, secret, signed, WebSocket.MixedCaseKeys[n]);
  }

  /** Without an upgrade, every handshake spelling leaves with the presence and values it came with. */
  lemma OutboundWebSocketNoUpgrade(h: Header, up: Upstream, cfg: Option<Config>, isManagedSvc: bool,
                                   secret: Result<string, string>, signed: Result<Signature, string>, k: string)
    requires k in WebSocket.CanonicalKeys || k in WebSocket.MixedCaseKeys
    requires !WebSocket.IsWebSocketUpgrade(h)
    ensures var out := OutboundHeaders(h, up, cfg, isManagedSvc, secret, signed);
      (k in out <==> k in h) && Values(out, k) == Values(h, k)
  {
    HandshakeKeyApart(k);
    UserAgentKeepsUpgrade(h);
    AfterRepairKeepsHandshakeKey(h, up, cfg, isManagedSvc, secret, signed, k);
  }

  /** "Origin" is replaced by the upstream's URL exactly when its first value was non-empty; otherwise it is left as it was. */
  lemma OutboundOrigin(h: Header, up: Upstream, cfg: Option<Config>, isManagedSvc: bool,
                       secret: Result<string, string>, signed: Result<Signature, string>)
    ensures var out := OutboundHeaders(h, up, cfg, isManagedSvc, secret, signed);
      && (Get(h, "Origin") != "" ==> "Origin" in out && out["Origin"] == [up.url.text])
      && (Get(h, "Origin") == "" ==> ("Origin" in out <==> "Origin" in h) && ("Origin" in h ==> out["Origin"] == h["Origin"]))
  {
    WebSocket.OtherKeyByInitial("Origin");
    var ua := WithDefaultUserAgent(h);
    WebSocket.FixedKeepsOtherKey(ua, "Origin");
    TailOrigin(WebSocket.Fixed(ua), up.url.text, cfg, isManagedSvc, secret, signed);
  }

  /** After the repair, "Origin" becomes the upstream's URL exactly when its first value is non-empty. */
  lemma TailOrigin(repaired: Header, origin: string, cfg: Option<Config>, isManagedSvc: bool,
                   secret: Result<string, string>, signed: Result<Signature, string>)
    ensures var out := WithSignature(WithUpstreamOrigin(WithoutForwarding(repaired, isManagedSvc), origin), cfg, secret, signed);
      && (Get(repaired, "Origin") != "" ==> "Origin" in out && out["Origin"] == [origin])
      && (Get(repaired, "Origin") == "" ==>
            ("Origin" in out <==> "Origin" in repaired) && ("Origin" in repaired ==> out["Origin"] == repaired["Origin"]))
  {
    var stripped := WithoutForwarding(repaired, isManagedSvc);
    assert Get(stripped, "Origin") == Get(repaired, "Origin");
  }

  /**
   * Signing comes last and is all-or-nothing: with SigV4 configured, the
   * secret fetched and the signer successful, the two signing headers hold
   * the signature; in every other case the signing step changes nothing.
   */
  lemma OutboundSignature(h: Header, up: Upstream, cfg: Option<Config>, isManagedSvc: bool,
                          secret: Result<string, string>, signed: Result<Signature, string>)
    ensures var out := OutboundHeaders(h, up, cfg, isManagedSvc, secret, signed);
      && (Signs(cfg, secret, signed) ==>
            && out == UnsignedHeaders(h, up, isManagedSvc)["X-Amz-Date" := [signed.value.amzDate]]["Authorization" := [signed.value.authorization]]
            && "Authorization" in out && out["Authorization"] == [signed.value.authorization]
            && "X-Amz-Date" in out && out["X-Amz-Date"] == [signed.value.amzDate])
      && (!Signs(cfg, secret, signed) ==> out == UnsignedHeaders(h, up, isManagedSvc))
  {
  }

  /**
   * "Authorization" and "X-Amz-Date" hold the signature when the request is
   * signed; otherwise each leaves with the presence and the values it came
   * with, so inbound credentials pass through an unsigned request.
   */
  lemma OutboundSigningKey(h: Header, up: Upstream, cfg: Option<Config>, isManagedSvc: bool,
                           secret: Result<string, string>, signed: Result<Signature, string>, k: string)
    requires k == "Authorization" || k == "X-Amz-Date"
    ensures var out := OutboundHeaders(h, up, cfg, isManagedSvc, secret, signed);
      && (Signs(cfg, secret, signed) ==>
            k in out && out[k] == [if k == "Authorization" then signed.value.authorization else signed.value.amzDate])
      && (!Signs(cfg, secret, signed) ==> (k in out <==> k in h) && (k in h ==> out[k] == h[k]))
  {
    WebSocket.OtherKeyByInitial(k);
    var ua := WithDefaultUserAgent(h);
    WebSocket.FixedKeepsOtherKey(ua, k);
    TailSigningKey(WebSocket.Fixed(ua), up.url.text, cfg, isManagedSvc, secret, signed, k);
  }

  /** The steps after the repair change a signing key only by signing. */
  lemma TailSigningKey(repaired: Header, origin: string, cfg: Option<Config>, isManagedSvc: bool,
                       secret: Result<string, string>, signed: Result<Signature, string>, k: string)
    requires k == "Authorization" || k == "X-Amz-Date"
    ensures var out := WithSignature(WithUpstreamOrigin(WithoutForwarding(repaired, isManagedSvc), origin), cfg, secret, signed);
      && (Signs(cfg, secret, signed) ==>
            k in out && out[k] == [if k == "Authorization" then signed.value.authorization else signed.value.amzDate])
      && (!Signs(cfg, secret, signed) ==> (k in out <==> k in repaired) && (k in repaired ==> out[k] == repaired[k]))
  {
    var stripped := WithoutForwarding(repaired, isManagedSvc);
    assert (k in stripped <==> k in repaired) && (k in repaired ==> stripped[k] == repaired[k]);
  }

  /** Every key the Director does not name leaves with the presence and the values it came with. */
  lemma OutboundKeepsOtherKeys(h: Header, up: Upstream, cfg: Option<Config>, isManagedSvc: bool,
                               secret: Result<string, string>, signed: Result<Signature, string>, k: string)
    requires Untouched(k)
    ensures var out := OutboundHeaders(h, up, cfg, isManagedSvc, secret, signed);
      (k in out <==> k in h) && (k in h ==> out[k] == h[k])
  {
    var ua := WithDefaultUserAgent(h);
    WebSocket.FixedKeepsOtherKey(ua, k);
    TailKeepsKey(WebSocket.Fixed(ua), up.url.text, cfg, isManagedSvc, secret, signed, k);
  }

  // -----------------------------------------------------------------------
  // ModifyResponse
  // -----------------------------------------------------------------------

  /** `ModifyResponse`: the upstream's `Server` header is replaced by the product name; it never fails. */
  method ModifyResponse(resp: UpstreamResponse) returns (err: Option<string>)
    modifies resp
    ensures "Server" in resp.header && resp.header["Server"] == [Product]
    ensures forall k :: k != "Server" ==> (k in resp.header <==> k in old(resp.header))
    ensures forall k :: k != "Server" && k in old(resp.header) ==> resp.header[k] == old(resp.header)[k]
    ensures err == None
  {
    resp.header := Set(resp.header, "Server", Product);
    err := None;
  }
}
