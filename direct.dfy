/**
 * The direct-response handler (`directResponseHandler.ServeHTTP`): a route
 * configured with a static response is answered without any upstream.
 */
module DirectResponse {
  import opened Response

  /** The oneof of the direct-response config; `Unset` also stands for a variant the handler does not know. */
  datatype Body = Inline(text: string) | InlineBytes(bytes: seq<bv8>) | Unset

  datatype DirectSpec = DirectSpec(body: Body, contentType: string, statusCode: int)

  /** The body the handler writes for a known variant. */
  function PayloadOf(b: Body): Payload
    requires !b.Unset?
  {
    match b
    case Inline(text) => Text(text)
    case InlineBytes(bytes) => Bytes(bytes)
  }

  predicate StatusInRange(code: int)
  {
    200 <= code <= 599
  }

  /**
   * The calls the handler makes, in order: for an unknown variant only
   * `WriteHeader(500)`; otherwise the body, then Content-Type when one is
   * configured, then the status when it lies in [200, 599], then `Server`.
   */
  function DirectActions(d: DirectSpec): (acts: seq<Action>)
    ensures d.body.Unset? ==> acts == [WriteHeader(500)]
    ensures !d.body.Unset? ==>
      && 2 <= |acts|
      && acts[0] == Write(PayloadOf(d.body))
      && acts[|acts| - 1] == SetHeader("Server", Product)
    ensures !d.body.Unset? ==>
      |acts| == 2 + (if d.contentType != "" then 1 else 0) + (if StatusInRange(d.statusCode) then 1 else 0)
    ensures !d.body.Unset? && d.contentType != "" ==> acts[1] == SetHeader("Content-Type", d.contentType)
    ensures !d.body.Unset? && StatusInRange(d.statusCode) ==>
      acts[1 + (if d.contentType != "" then 1 else 0)] == WriteHeader(d.statusCode)
    ensures (exists i :: 0 <= i < |acts| && acts[i].Write?) <==> !d.body.Unset?
    ensures (exists i :: 0 <= i < |acts| && acts[i] == SetHeader("Content-Type", d.contentType))
        <==> !d.body.Unset? && d.contentType != ""
    ensures (exists i :: 0 <= i < |acts| && acts[i].WriteHeader?) <==> d.body.Unset? || StatusInRange(d.statusCode)
    ensures forall i :: 0 <= i < |acts| && acts[i].WriteHeader? ==>
      acts[i].code == if d.body.Unset? then 500 else d.statusCode
    ensures (exists i :: 0 <= i < |acts| && acts[i] == SetHeader("Server", Product)) <==> !d.body.Unset?
  {
    if d.body.Unset? then
      var acts := [WriteHeader(500)];
      assert acts[0].WriteHeader?;
      acts
    else
      var contentType := if d.contentType != "" then [SetHeader("Content-Type", d.contentType)] else [];
      var status := if StatusInRange(d.statusCode) then [WriteHeader(d.statusCode)] else [];
      var acts := [Write(PayloadOf(d.body))] + contentType + status + [SetHeader("Server", Product)];
      assert acts[0].Write? && acts[|acts| - 1] == SetHeader("Server", Product);
      assert contentType != [] ==> acts[1] == SetHeader("Content-Type", d.contentType);
      assert status != [] ==> acts[1 + |contentType|] == WriteHeader(d.statusCode);
      acts
  }

  /** `ServeHTTP`: make the calls `DirectActions` lists, in that order. */
  method ServeDirect(d: DirectSpec, w: ResponseWriter)
    modifies w
    ensures w.actions == old(w.actions) + DirectActions(d)
  {
    match d.body {
      case Inline(text) => w.Write(Text(text));
      case InlineBytes(bytes) => w.Write(Bytes(bytes));
      case Unset =>
        w.WriteHeader(500);
        return;
    }
    if d.contentType != "" {
      w.SetHeader("Content-Type", d.contentType);
    }
    if StatusInRange(d.statusCode) {
      w.WriteHeader(d.statusCode);
    }
    w.SetHeader("Server", Product);
  }

  // -----------------------------------------------------------------------
  // The configured status and headers never reach the wire
  // -----------------------------------------------------------------------

  /**
   * As written, the body is written first, which commits status 200 with
   * the headers set so far (none): the configured status, Content-Type and
   * `Server` all come too late.
   */
  lemma AsWrittenCommitsBeforeConfig(d: DirectSpec)
    requires !d.body.Unset?
    ensures EffectiveStatus(DirectActions(d)) == 200
    ensures SentHeaders(DirectActions(d)) == []
  {
    assert DirectActions(d)[0].Write?;
  }

  /** The concrete case: status 201 and "text/plain" are configured; 200 is sent, and neither header the handler sets is sent. */
  lemma ConfiguredCreatedIsLost()
    ensures var acts := DirectActions(DirectSpec(Inline("hello"), "text/plain", 201));
      && SetHeader("Content-Type", "text/plain") in acts
      && WriteHeader(201) in acts
      && EffectiveStatus(acts) == 200
      && SentHeaders(acts) == []
  {
    var d := DirectSpec(Inline("hello"), "text/plain", 201);
    AsWrittenCommitsBeforeConfig(d);
    var acts := DirectActions(d);
    assert acts[1] == SetHeader("Content-Type", "text/plain");
    assert acts[2] == WriteHeader(201);
  }

  /** The evidently intended order: the headers, then the status, then the body. */
  function IntendedDirectActions(d: DirectSpec): seq<Action>
  {
    if d.body.Unset? then [WriteHeader(500)]
    else
      ConfiguredHeaders(d)
      + (if StatusInRange(d.statusCode) then [WriteHeader(d.statusCode)] else [])
      + [Write(PayloadOf(d.body))]
  }

  /** The headers a known variant configures: Content-Type when one is set, then `Server`. */
  function ConfiguredHeaders(d: DirectSpec): seq<Action>
  {
    (if d.contentType != "" then [SetHeader("Content-Type", d.contentType)] else [])
    + [SetHeader("Server", Product)]
  }

  /**
   * In the intended order the configured status is sent when it is in
   * range, and 200 otherwise, and both configured headers are sent.
   */
  lemma IntendedConfigApplied(d: DirectSpec)
    ensures EffectiveStatus(IntendedDirectActions(d)) ==
      if d.body.Unset? then 500 else if StatusInRange(d.statusCode) then d.statusCode else 200
    ensures !d.body.Unset? ==> SentHeaders(IntendedDirectActions(d)) == ConfiguredHeaders(d)
    ensures d.body.Unset? ==> SentHeaders(IntendedDirectActions(d)) == []
  {
    if !d.body.Unset? {
      var headers := ConfiguredHeaders(d);
      var rest := (if StatusInRange(d.statusCode) then [WriteHeader(d.statusCode)] else [])
                  + [Write(PayloadOf(d.body))];
      assert IntendedDirectActions(d) == headers + rest;
      EffectiveStatusSkipsHeaders(headers, rest);
      SentHeadersKeepsPrefix(headers, rest);
      assert !rest[0].SetHeader?;
    }
  }

  /** The handler with its calls in the intended order. */
  method ServeDirectIntended(d: DirectSpec, w: ResponseWriter)
    modifies w
    ensures w.actions == old(w.actions) + IntendedDirectActions(d)
  {
    match d.body {
      case Unset =>
        w.WriteHeader(500);
        return;
      case _ =>
    }
    if d.contentType != "" {
      w.SetHeader("Content-Type", d.contentType);
    }
    w.SetHeader("Server", Product);
    if StatusInRange(d.statusCode) {
      w.WriteHeader(d.statusCode);
    }
    w.Write(PayloadOf(d.body));
  }
}
