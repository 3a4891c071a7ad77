/**
 * WebSocket handshake repair (`isWebSocketUpgrade`, `fixWebSocketHeaders`).
 *
 * Go stores header keys in canonical form, which spells the handshake
 * headers `Sec-Websocket-Key` and so on; the names registered in section
 * 11.3 of RFC 6455 are spelled `Sec-WebSocket-Key`. On an upgrade request the
 * proxy moves the five values to the registered spelling before forwarding.
 */
module WebSocket {
  import opened Headers
  import opened Messages

  /** The five handshake keys as Go's canonicalisation spells them. */
  const CanonicalKeys: seq<string> := [
    "Sec-Websocket-Key", "Sec-Websocket-Extensions", "Sec-Websocket-Accept",
    "Sec-Websocket-Protocol", "Sec-Websocket-Version"]

  /** The same five keys as section 11.3 of RFC 6455 spells them. */
  const MixedCaseKeys: seq<string> := [
    "Sec-WebSocket-Key", "Sec-WebSocket-Extensions", "Sec-WebSocket-Accept",
    "Sec-WebSocket-Protocol", "Sec-WebSocket-Version"]

  lemma WebsocketIsAscii()
    ensures IsAscii("websocket")
  {
  }

  /**
   * `isWebSocketUpgrade`: the raw "Connection" list carries the token
   * "Upgrade" (section 7.6.1 of RFC 9110) and the first "Upgrade" value is
   * "websocket" up to case (section 4.1 of RFC 6455).
   */
  predicate IsWebSocketUpgrade(h: Header)
  {
    WebsocketIsAscii();
    ValuesContainToken(Values(h, "Connection"), "Upgrade") && EqualFold(Get(h, "Upgrade"), "websocket")
  }

  /** The upgrade test in its reference reading: some element of some "Connection" value is the token. */
  lemma {:induction false} UpgradeIffConnectionElement(h: Header)
    ensures IsAscii("websocket")
    ensures IsWebSocketUpgrade(h) <==>
      && (exists n, i, j :: 0 <= n < |Values(h, "Connection")| && ElementIsToken(Values(h, "Connection")[n], i, j, "Upgrade"))
      && EqualFold(Get(h, "Upgrade"), "websocket")
  {
    WebsocketIsAscii();
    var cs := Values(h, "Connection");
    forall n | 0 <= n < |cs| ensures ValueContainsToken(cs[n], "Upgrade") <==> HasTokenElement(cs[n], "Upgrade") {
      ValueContainsTokenIffElement(cs[n], "Upgrade");
    }
  }

  /** Both spellings of every handshake key start with 'S' and run past character 14. */
  lemma KeyShapes()
    ensures forall n :: 0 <= n < 5 ==> |CanonicalKeys[n]| > 14 && |MixedCaseKeys[n]| > 14
    ensures forall n :: 0 <= n < 5 ==> CanonicalKeys[n][0] == 'S' && MixedCaseKeys[n][0] == 'S'
  {
  }

  /** No canonical spelling is a registered one: they differ at character 7 ('s' against 'S'). */
  lemma SpellingsDiffer()
    ensures forall n, m :: 0 <= n < 5 && 0 <= m < 5 ==> CanonicalKeys[n] != MixedCaseKeys[m]
  {
    forall n, m | 0 <= n < 5 && 0 <= m < 5 ensures CanonicalKeys[n] != MixedCaseKeys[m] {
      assert CanonicalKeys[n][7] == 's' && MixedCaseKeys[m][7] == 'S';
    }
  }

  /** The five keys of one spelling differ from each other at character 14. */
  lemma SuffixesDiffer()
    ensures forall n, m :: 0 <= n < m < 5 ==> CanonicalKeys[n] != CanonicalKeys[m] && MixedCaseKeys[n] != MixedCaseKeys[m]
  {
    forall n, m | 0 <= n < m < 5 ensures CanonicalKeys[n] != CanonicalKeys[m] && MixedCaseKeys[n] != MixedCaseKeys[m] {
      assert CanonicalKeys[n][14] == MixedCaseKeys[n][14] == "KEAPV"[n];
      assert CanonicalKeys[m][14] == MixedCaseKeys[m][14] == "KEAPV"[m];
    }
  }

  /** A header map is left untouched by the repair exactly where it does not name a handshake key. */
  ghost predicate OtherKey(k: string)
  {
    k !in CanonicalKeys && k !in MixedCaseKeys
  }

  /** Every handshake key, in either spelling, starts with 'S'. */
  lemma OtherKeyByInitial(k: string)
    requires |k| > 0 && k[0] != 'S'
    ensures OtherKey(k)
  {
    forall n | 0 <= n < 5 ensures CanonicalKeys[n][0] == 'S' && MixedCaseKeys[n][0] == 'S' {
    }
  }

  /** The header map `fixWebSocketHeaders` leaves behind. */
  function Fixed(h: Header): Header
  {
    if IsWebSocketUpgrade(h) then Repaired(h) else h
  }

  /** The five assignments of the repair, then the five deletions. */
  function Repaired(h: Header): Header
  {
    var moved := h[MixedCaseKeys[0] := Values(h, CanonicalKeys[0])]
                  [MixedCaseKeys[1] := Values(h, CanonicalKeys[1])]
                  [MixedCaseKeys[2] := Values(h, CanonicalKeys[2])]
                  [MixedCaseKeys[3] := Values(h, CanonicalKeys[3])]
                  [MixedCaseKeys[4] := Values(h, CanonicalKeys[4])];
    moved - {CanonicalKeys[0], CanonicalKeys[1], CanonicalKeys[2], CanonicalKeys[3], CanonicalKeys[4]}
  }

  /** Handshake key `n` is moved to its registered spelling. */
  lemma RepairedMovesKey(h: Header, n: nat)
    requires n < 5
    ensures CanonicalKeys[n] !in Repaired(h)
    ensures MixedCaseKeys[n] in Repaired(h) && Repaired(h)[MixedCaseKeys[n]] == Values(h, CanonicalKeys[n])
  {
    SpellingsDiffer();
    SuffixesDiffer();
  }

  /** On an upgrade, handshake key `n` is moved to its registered spelling. */
  lemma FixedMovesKey(h: Header, n: nat)
    requires n < 5 && IsWebSocketUpgrade(h)
    ensures CanonicalKeys[n] !in Fixed(h)
    ensures MixedCaseKeys[n] in Fixed(h) && Fixed(h)[MixedCaseKeys[n]] == Values(h, CanonicalKeys[n])
  {
    RepairedMovesKey(h, n);
  }

  /** Every key outside the ten handshake spellings keeps its presence and its values. */
  lemma FixedKeepsOtherKey(h: Header, k: string)
    requires OtherKey(k)
    ensures k in Fixed(h) <==> k in h
    ensures k in h ==> Fixed(h)[k] == h[k]
  {
  }

  /**
   * What the repair does: nothing unless the request is an upgrade; on an
   * upgrade the five canonical spellings are gone, the five registered
   * spellings hold the old values (the empty list where the canonical key
   * was absent), and every other key is untouched.
   */
  lemma FixedSpec(h: Header)
    ensures !IsWebSocketUpgrade(h) ==> Fixed(h) == h
    ensures IsWebSocketUpgrade(h) ==>
      forall n :: 0 <= n < 5 ==>
        && CanonicalKeys[n] !in Fixed(h)
        && MixedCaseKeys[n] in Fixed(h)
        && Fixed(h)[MixedCaseKeys[n]] == Values(h, CanonicalKeys[n])
    ensures forall k :: OtherKey(k) ==> (k in Fixed(h) <==> k in h) && (k in h ==> Fixed(h)[k] == h[k])
  {
    if IsWebSocketUpgrade(h) {
      forall n | 0 <= n < 5
        ensures CanonicalKeys[n] !in Fixed(h)
        ensures MixedCaseKeys[n] in Fixed(h) && Fixed(h)[MixedCaseKeys[n]] == Values(h, CanonicalKeys[n])
      {
        FixedMovesKey(h, n);
      }
    }
    forall k | OtherKey(k) ensures (k in Fixed(h) <==> k in h) && (k in h ==> Fixed(h)[k] == h[k]) {
      FixedKeepsOtherKey(h, k);
    }
  }

  /** A handshake key absent before the repair of an upgrade is present afterwards, holding the empty list. */
  lemma AbsentKeyBecomesEmpty(h: Header, n: nat)
    requires n < 5 && IsWebSocketUpgrade(h) && CanonicalKeys[n] !in h
    ensures MixedCaseKeys[n] in Fixed(h) && Fixed(h)[MixedCaseKeys[n]] == []
  {
    FixedMovesKey(h, n);
  }

  /**
   * The repair as Go performs it, in place: each assignment reads the map
   * as the earlier ones left it, and the canonical keys go one at a time.
   */
  function StepwiseRepaired(h: Header): Header
  {
    var h1 := h[MixedCaseKeys[0] := Values(h, CanonicalKeys[0])];
    var h2 := h1[MixedCaseKeys[1] := Values(h1, CanonicalKeys[1])];
    var h3 := h2[MixedCaseKeys[2] := Values(h2, CanonicalKeys[2])];
    var h4 := h3[MixedCaseKeys[3] := Values(h3, CanonicalKeys[3])];
    var h5 := h4[MixedCaseKeys[4] := Values(h4, CanonicalKeys[4])];
    h5 - {CanonicalKeys[0]} - {CanonicalKeys[1]} - {CanonicalKeys[2]} - {CanonicalKeys[3]} - {CanonicalKeys[4]}
  }

  /** Doing the repair in place gives the same map: no assignment disturbs a key a later one reads. */
  lemma StepwiseIsRepaired(h: Header)
    ensures StepwiseRepaired(h) == Repaired(h)
  {
    SpellingsDiffer();
    var h1 := h[MixedCaseKeys[0] := Values(h, CanonicalKeys[0])];
    assert Values(h1, CanonicalKeys[1]) == Values(h, CanonicalKeys[1]);
    var h2 := h1[MixedCaseKeys[1] := Values(h1, CanonicalKeys[1])];
    assert Values(h2, CanonicalKeys[2]) == Values(h, CanonicalKeys[2]);
    var h3 := h2[MixedCaseKeys[2] := Values(h2, CanonicalKeys[2])];
    assert Values(h3, CanonicalKeys[3]) == Values(h, CanonicalKeys[3]);
    var h4 := h3[MixedCaseKeys[3] := Values(h3, CanonicalKeys[3])];
    assert Values(h4, CanonicalKeys[4]) == Values(h, CanonicalKeys[4]);
    var h5 := h4[MixedCaseKeys[4] := Values(h4, CanonicalKeys[4])];
    var gone := {CanonicalKeys[0], CanonicalKeys[1], CanonicalKeys[2], CanonicalKeys[3], CanonicalKeys[4]};
    assert h5 - {CanonicalKeys[0]} - {CanonicalKeys[1]} - {CanonicalKeys[2]} - {CanonicalKeys[3]} - {CanonicalKeys[4]} == h5 - gone;
  }

  /** `fixWebSocketHeaders`: on an upgrade, five assignments, then five deletions. */
  method FixWebSocketHeaders(outReq: Request)
    modifies outReq`header
    ensures outReq.header == Fixed(old(outReq.header))
  {
    if !IsWebSocketUpgrade(outReq.header) {
      return;
    }
    StepwiseIsRepaired(outReq.header);
    outReq.header := outReq.header[MixedCaseKeys[0] := Values(outReq.header, CanonicalKeys[0])];
    outReq.header := outReq.header[MixedCaseKeys[1] := Values(outReq.header, CanonicalKeys[1])];
    outReq.header := outReq.header[MixedCaseKeys[2] := Values(outReq.header, CanonicalKeys[2])];
    outReq.header := outReq.header[MixedCaseKeys[3] := Values(outReq.header, CanonicalKeys[3])];
    outReq.header := outReq.header[MixedCaseKeys[4] := Values(outReq.header, CanonicalKeys[4])];
    outReq.header := outReq.header - {CanonicalKeys[0]};
    outReq.header := outReq.header - {CanonicalKeys[1]};
    outReq.header := outReq.header - {CanonicalKeys[2]};
    outReq.header := outReq.header - {CanonicalKeys[3]};
    outReq.header := outReq.header - {CanonicalKeys[4]};
  }
}
