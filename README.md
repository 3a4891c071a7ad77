# The octelium HTTP gateway's proxy pipeline, in Dafny

This project models the request-forwarding core of octelium's HTTP gateway
(`cluster/vigil/vigil/modes/httpg/proxy.go`). For a request that is already
authenticated and authorized, the gateway either answers it from a configured
direct response, or forwards it to an upstream through a reverse proxy. The
model covers every decision the proxy makes on that path:

- `getProxy` chooses between the direct-response handler and a reverse proxy
  bound to an upstream and its transport, and propagates the errors of the
  upstream and transport lookups (`Proxy.GetProxy`).
- The direct-response handler is modelled as the ordered calls it makes on
  its `http.ResponseWriter` (`DirectResponse.DirectActions`,
  `DirectResponse.ServeDirect`). A small model of net/http's writer says
  which status and which headers those calls put on the wire
  (`Response.EffectiveStatus`, `Response.SentHeaders`).
- The Director rewrites the outbound `http.Request` in place: the scheme, the
  host and dial address, the query separators, the request URI and the
  protocol version, then the header edits in the source's order. Those edits
  are the default `User-Agent`, the WebSocket handshake repair, the removal of
  the forwarding headers, the `Origin` rewrite, and SigV4 signing
  (`Proxy.Director` and its step methods).
- The WebSocket upgrade test and the handshake repair (`WebSocket`). This
  includes Go's `httpguts.HeaderValuesContainsToken` and `strings.EqualFold`,
  modelled in `Headers`.
- `ModifyResponse` overwrites the upstream's `Server` header
  (`Proxy.ModifyResponse`).
- The `ErrorHandler` maps a transport error's wrap chain to 502, 499, 504,
  502 or 500, and writes that status's text as the body
  (`ErrorClassifier`).

`Request` and `UpstreamResponse` are classes, because the Director,
`fixWebSocketHeaders` and `ModifyResponse` update them in place. The header
map is a `map<string, seq<string>>` field that the step methods reassign. The
header keys the code uses are already in Go's canonical form, so `Get`, `Set`
and `Del` are exact-key operations. Raw indexing of an absent key yields the
empty list, as Go's nil slice does. The response writer is a class that
records every call made on it.

A failed signature does not stop the request. The `return` on that path
(proxy.go:170) is the Director's last statement, so the request is forwarded
unsigned, exactly as after a failure to fetch the secret. `Proxy.Sign` and
`Proxy.WithSignature` model this.

## Model

| member | source | states |
|---|---|---|
| `Proxy.GetProxy` | cluster/vigil/vigil/modes/httpg/proxy.go:66-90 | A configured direct response yields the direct handler, and neither the upstream nor the transport is looked up. Otherwise the upstream is looked up first. A failed upstream lookup returns exactly its error, and the transport is not looked up. For a found upstream the transport is looked up, the result is an error exactly when that lookup fails, and it is then that lookup's error. Otherwise it is a reverse proxy bound to exactly the upstream and transport the lookups returned. |
| `Proxy.WireScheme` | cluster/vigil/vigil/modes/httpg/proxy.go:94-110 | The outbound scheme is always http or https: https for https and wss, http for http, ws, grpc and h2c. For any other label it is https exactly when a client certificate is configured, at the top level or under TLS. |
| `Proxy.ReplaceSemicolons` | cluster/vigil/vigil/modes/httpg/proxy.go:120 | The rewritten query has the same length, no ';' is left, every ';' became '&', and every other character is unchanged in its place. |
| `Proxy.ReplaceSemicolonsIdempotent` | cluster/vigil/vigil/modes/httpg/proxy.go:120 | Rewriting an already rewritten query changes nothing. |
| `Proxy.Director` | cluster/vigil/vigil/modes/httpg/proxy.go:91-176 | The new state of the outbound request. The scheme is `WireScheme`. The host is the upstream URL's host, or the signer's `Host` when the request is signed. The dial address is the host:port for a user upstream and the URL host otherwise. The query has ';' rewritten to '&', or is the signer's canonical query when the request is signed. The request URI is empty, and the protocol is HTTP/2 2.0 or HTTP/1.1 1.1. The header map is the composition of the header steps in source order. Method and path are unchanged. |
| `Proxy.RewriteTarget` | cluster/vigil/vigil/modes/httpg/proxy.go:94-121 | The URL fields and the request URI take the values listed under `Proxy.Director`. Only those fields change. |
| `Proxy.RewriteHeaders` | cluster/vigil/vigil/modes/httpg/proxy.go:123-175 | The header edits and the protocol pin, in source order, leave the headers equal to `OutboundHeaders` of the inbound ones. The query and `Host` change only by signing. |
| `Proxy.PinProtocol` | cluster/vigil/vigil/modes/httpg/proxy.go:130-138 | HTTP/2 2.0 for an HTTP/2 upstream, HTTP/1.1 1.1 otherwise. Only the three protocol fields change. |
| `Proxy.SetDefaultUserAgent` | cluster/vigil/vigil/modes/httpg/proxy.go:123-125 | The headers become `WithDefaultUserAgent` of the old ones. |
| `Proxy.StripForwardingHeaders` | cluster/vigil/vigil/modes/httpg/proxy.go:140-145 | The headers become `WithoutForwarding` of the old ones. |
| `Proxy.RewriteOrigin` | cluster/vigil/vigil/modes/httpg/proxy.go:147-149 | The headers become `WithUpstreamOrigin` of the old ones. |
| `Proxy.Sign` | cluster/vigil/vigil/modes/httpg/proxy.go:151-175 | The headers become `WithSignature` of the old ones. A signed request also takes the signer's query and `Host`. A fetch failure and a signing failure both leave the request unchanged, and neither stops it. |
| `Proxy.UserAgentKeepsUpgrade` | cluster/vigil/vigil/modes/httpg/proxy.go:123-128 | Adding the default User-Agent cannot change whether the request is a WebSocket upgrade. |
| `Proxy.OutboundUserAgent` | cluster/vigil/vigil/modes/httpg/proxy.go:123-125 | An inbound User-Agent key keeps its list, even an empty list. An absent one leaves as ["octelium"]. |
| `Proxy.OutboundForwarding` | cluster/vigil/vigil/modes/httpg/proxy.go:140-145 | For a service that is not managed, the four forwarding headers are absent from the Director's output. For a managed one, each keeps its presence and values. |
| `Proxy.OutboundWebSocketUpgrade` | cluster/vigil/vigil/modes/httpg/proxy.go:123-175 | On an upgrade, each handshake header leaves only in its registered spelling, carrying the inbound canonical key's values, or the empty list when that key was absent. |
| `Proxy.OutboundWebSocketNoUpgrade` | cluster/vigil/vigil/modes/httpg/proxy.go:123-175 | Without an upgrade, every handshake spelling leaves as it arrived. |
| `Proxy.OutboundOrigin` | cluster/vigil/vigil/modes/httpg/proxy.go:147-149 | When the inbound Origin's first value is non-empty, the outbound Origin is exactly [upstream URL]. Otherwise Origin leaves as it arrived. |
| `Proxy.OutboundSignature` | cluster/vigil/vigil/modes/httpg/proxy.go:151-175 | Signing is all or nothing. When SigV4 is configured, the secret was fetched and the signer succeeded, the unsigned headers are sent with Authorization and X-Amz-Date added. In every other case, exactly the unsigned headers are sent. |
| `Proxy.OutboundSigningKey` | cluster/vigil/vigil/modes/httpg/proxy.go:151-175 | On a signed request, Authorization and X-Amz-Date hold the signature. Otherwise each leaves with the presence and values it arrived with, so inbound credentials pass through. |
| `Proxy.OutboundKeepsOtherKeys` | cluster/vigil/vigil/modes/httpg/proxy.go:123-175 | Any key the Director does not name leaves with the presence and values it arrived with. |
| `Proxy.TailKeepsKey` | cluster/vigil/vigil/modes/httpg/proxy.go:140-175 | The steps after the WebSocket repair leave any key they do not name as the repair left it. |
| `Proxy.ModifyResponse` | cluster/vigil/vigil/modes/httpg/proxy.go:179-182 | The upstream response's Server header becomes ["octelium"], every other header is unchanged, and no error is returned. |
| `WebSocket.UpgradeIffConnectionElement` | cluster/vigil/vigil/modes/httpg/proxy.go:233-239 | The scan-based upgrade test holds exactly when some comma-separated element of some Connection value, trimmed of optional white space, equals "Upgrade" up to ASCII case, and the first Upgrade value equals "websocket" up to Unicode case folding. |
| `WebSocket.RepairedMovesKey` | cluster/vigil/vigil/modes/httpg/proxy.go:246-255 | After the repair, handshake key n is gone in its canonical spelling and holds its old values in its registered spelling. |
| `WebSocket.FixedMovesKey` | cluster/vigil/vigil/modes/httpg/proxy.go:241-255 | On an upgrade request, the same holds of `fixWebSocketHeaders`. |
| `WebSocket.FixedKeepsOtherKey` | cluster/vigil/vigil/modes/httpg/proxy.go:241-255 | The repair does not touch any key outside the ten handshake spellings. |
| `WebSocket.FixedSpec` | cluster/vigil/vigil/modes/httpg/proxy.go:241-255 | The whole repair. Without an upgrade, nothing changes. On an upgrade, all five keys move and every other key is untouched. |
| `WebSocket.AbsentKeyBecomesEmpty` | cluster/vigil/vigil/modes/httpg/proxy.go:246-250 | A handshake key absent from an upgrade request becomes present in its registered spelling, holding the empty list. |
| `WebSocket.StepwiseIsRepaired` | cluster/vigil/vigil/modes/httpg/proxy.go:246-255 | Performing the ten map updates one at a time, each reading the map as the earlier ones left it, gives the same map as moving all five values from the original map. |
| `WebSocket.FixWebSocketHeaders` | cluster/vigil/vigil/modes/httpg/proxy.go:241-256 | The request's headers become `Fixed` of the old ones. |
| `Headers.FirstComma` | cluster/vigil/vigil/modes/httpg/proxy.go:234 | The index of the first comma of a header value, or -1 when there is none. |
| `Headers.ValueContainsTokenIffElement` | cluster/vigil/vigil/modes/httpg/proxy.go:234 | The left-to-right token scan finds the token exactly when some whole element of the value, trimmed, equals it. |
| `DirectResponse.DirectActions` | cluster/vigil/vigil/modes/httpg/proxy.go:44-64 | The handler's calls. An unknown variant gives exactly WriteHeader(500). Otherwise the body comes first and Server last, and there are exactly two calls more than the optional ones. Content-Type is set exactly when one is configured, as the second call. WriteHeader is called exactly when the status is in [200, 599], with that status, right after the body or Content-Type. |
| `DirectResponse.ServeDirect` | cluster/vigil/vigil/modes/httpg/proxy.go:44-64 | The writer receives exactly the calls `DirectActions` lists, in order. |
| `DirectResponse.AsWrittenCommitsBeforeConfig` | cluster/vigil/vigil/modes/httpg/proxy.go:49-63 | For a known variant, the status sent is 200 and no header the handler sets is sent. |
| `DirectResponse.ConfiguredCreatedIsLost` | cluster/vigil/vigil/modes/httpg/proxy.go:48-63 | With body "hello", type text/plain and status 201, the handler does call WriteHeader(201) and does set Content-Type, yet 200 is sent, and none of the headers the handler sets is sent. |
| `DirectResponse.IntendedConfigApplied` | cluster/vigil/vigil/modes/httpg/proxy.go:56-63 | In the intended order, the configured status is sent when in range (200 otherwise, 500 for an unknown variant), and Content-Type and Server are sent. |
| `DirectResponse.ServeDirectIntended` | cluster/vigil/vigil/modes/httpg/proxy.go:44-64 | The corrected handler makes exactly the calls `IntendedDirectActions` lists. |
| `Response.EffectiveStatus` | cluster/vigil/vigil/modes/httpg/proxy.go:49-60 | The status net/http sends. It is 200 when only headers were set. Any other status comes from a WriteHeader call that was made. |
| `Response.EffectiveStatusSkipsHeaders` | cluster/vigil/vigil/modes/httpg/proxy.go:56-63 | Setting headers before the status or the body does not change the status sent. |
| `Response.SentHeaders` | cluster/vigil/vigil/modes/httpg/proxy.go:56-63 | The header settings that reach the wire are exactly the leading run of settings before the first Write or WriteHeader. |
| `Response.SentHeadersKeepsPrefix` | cluster/vigil/vigil/modes/httpg/proxy.go:56-63 | Headers set before any status or body are all sent, whatever follows. |
| `ErrorClassifier.FirstNetError` | cluster/vigil/vigil/modes/httpg/proxy.go:193-194 | `errors.As` into a `net.Error` finds the first `net.Error` link of the chain, or none when the chain has none. |
| `ErrorClassifier.StatusFor` | cluster/vigil/vigil/modes/httpg/proxy.go:185-201 | The status is one of 499, 500, 502 and 504, each characterised in both directions. 502 when an EOF is anywhere in the chain, or when the first `net.Error` did not time out and there is no cancellation. 499 for a cancellation without EOF. 504 when the first `net.Error` timed out, with neither EOF nor cancellation. 500 otherwise. |
| `ErrorClassifier.ErrorActions` | cluster/vigil/vigil/modes/httpg/proxy.go:203-204 | First the status, then its text as the body. The body is empty exactly for 499, which has no registered text. The status sent is the classified one. |
| `ErrorClassifier.HandleError` | cluster/vigil/vigil/modes/httpg/proxy.go:184-205 | The writer receives exactly the calls `ErrorActions` lists. |
| `ErrorClassifier.EofWinsOverCanceled` | cluster/vigil/vigil/modes/httpg/proxy.go:187-190 | A chain holding both EOF and a cancellation gets 502, whatever their order. |
| `ErrorClassifier.WrappedEofIsBadGateway` | cluster/vigil/vigil/modes/httpg/proxy.go:188-196 | A timed-out network error that wraps an EOF gets 502, not 504. |
| `ErrorClassifier.DeadlineIsGatewayTimeout` | cluster/vigil/vigil/modes/httpg/proxy.go:193-196 | An error wrapping a context deadline, which is a timed-out `net.Error`, gets 504. |

## Left out

- SigV4 signing is not computed. The signer's result is an input: either an error, or what it writes into the request. That is the `Authorization` and `X-Amz-Date` values, the query re-encoded in canonical form, and the `Host` with any default port removed. Canonical requests, the body digest, keys, HMAC and the clock are not modelled. A signer error is assumed to leave the request as it was.
- The reverse proxy's own edits after the Director are not modelled. These are: `X-Forwarded-For` gaining the client address, the removal of hop-by-hop headers, and `Connection`/`Upgrade` being added back on an upgrade. The header lemmas describe the Director's output, not the bytes sent upstream.
- The secret store, `lbManager.GetUpstream` and `getRoundTripper` are not modelled. Their answers are inputs to `Proxy.GetProxy` and `Proxy.Director`.
- `IsManagedService` and `isHTTP2RequestUpstream` are not modelled. Their answers are the boolean inputs `isManagedSvc` and `http2Upstream`.
- `upstream.URL.String()` is taken as given, as the `text` field of the upstream URL.
- Logging (`zap`) is not modelled, since it has no effect on the exchange.
- The reverse proxy's streaming, its 100 ms `FlushInterval` and its buffer pool are not modelled. Concurrency between requests is not modelled either: each request is handled on its own data.
- `removeOcteliumCookie` is commented out in the source and never called, so it is not part of this model. The command-line files of the gateway are not part of this model.
- Strings are sequences of characters, not UTF-8 bytes. An inline body is written as its text.
- `Headers.EqualFold` is exact only when its second argument is ASCII, which is the only way it is used (against "websocket").
- Error chains are linear: each error wraps at most one other. Multi-error trees and custom `Is`/`As` methods are not modelled.
- The writer model only covers the status and the headers that net/http sends, not the wire format.

## Findings

| source | as written | input that shows it | evidently intended | confidence | as-written member | corrected member |
|---|---|---|---|---|---|---|
| cluster/vigil/vigil/modes/httpg/proxy.go:49-63 | The handler writes the body before it sets Content-Type, calls `WriteHeader` and sets `Server`. The first `Write` commits status 200 and the headers set so far, which are none. The later `WriteHeader` is ignored, and the later header settings are not sent. | A direct response with body "hello", content type "text/plain" and status 201: 200 is sent, without the configured Content-Type (net/http sniffs one from the body) and without Server. | Set Content-Type and Server, then call `WriteHeader` with the configured status, then write the body. The response then carries 201, text/plain and `Server: octelium`. | medium, not executed | `DirectResponse.ConfiguredCreatedIsLost` | `DirectResponse.IntendedConfigApplied` |
