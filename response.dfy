/**
 * The response side of an exchange: a `ResponseWriter` records, in order,
 * the calls a handler makes on it. What net/http then puts on the wire is
 * library behaviour; the status it sends (`EffectiveStatus`) and the headers
 * it sends (`SentHeaders`) are modelled.
 */
module Response {

  /** The product name the gateway sends as `Server` and as the default `User-Agent`. */
  const Product: string := "octelium"

  /** A body written with `w.Write`: a string's own bytes, or a byte slice. */
  datatype Payload = Text(text: string) | Bytes(bytes: seq<bv8>)

  /** One call on an `http.ResponseWriter`. */
  datatype Action =
    | Write(body: Payload)
    | SetHeader(key: string, value: string)   // w.Header().Set(key, value)
    | WriteHeader(code: int)

  class ResponseWriter {
    /** Every call made on this writer so far, oldest first. */
    var actions: seq<Action>

    constructor ()
      ensures actions == []
    {
      actions := [];
    }

    method Write(body: Payload)
      modifies this
      ensures actions == old(actions) + [Action.Write(body)]
    {
      actions := actions + [Action.Write(body)];
    }

    method SetHeader(key: string, value: string)
      modifies this
      ensures actions == old(actions) + [Action.SetHeader(key, value)]
    {
      actions := actions + [Action.SetHeader(key, value)];
    }

    method WriteHeader(code: int)
      modifies this
      ensures actions == old(actions) + [Action.WriteHeader(code)]
    {
      actions := actions + [Action.WriteHeader(code)];
    }
  }

  /**
   * The status net/http sends for a sequence of calls: the code of the first
   * `WriteHeader`, unless a `Write` comes first, which commits 200; later
   * `WriteHeader` calls are ignored, and a handler that does neither sends 200.
   * In net/http an informational code (100-199 other than 101) is sent
   * without committing the status; this function does not model that, and
   * no handler here writes such a code: the direct response writes only
   * 500 or a code in [200, 599], the error handler only 499, 500, 502 or 504.
   */
  function EffectiveStatus(acts: seq<Action>): (code: int)
    ensures (forall i :: 0 <= i < |acts| ==> acts[i].SetHeader?) ==> code == 200
    ensures code != 200 ==> exists i :: 0 <= i < |acts| && acts[i] == WriteHeader(code)
  {
    if acts == [] then 200
    else match acts[0]
      case WriteHeader(c) => c
      case Write(_) => 200
      case SetHeader(_, _) => EffectiveStatus(acts[1..])
  }

  /** Headers set before any status or body do not affect the status. */
  lemma {:induction false} EffectiveStatusSkipsHeaders(pre: seq<Action>, rest: seq<Action>)
    requires forall i :: 0 <= i < |pre| ==> pre[i].SetHeader?
    ensures EffectiveStatus(pre + rest) == EffectiveStatus(rest)
  {
    if pre == [] {
      assert pre + rest == rest;
    } else {
      assert (pre + rest)[0] == pre[0];
      assert (pre + rest)[1..] == pre[1..] + rest;
      EffectiveStatusSkipsHeaders(pre[1..], rest);
    }
  }

  /**
   * The header settings that reach the wire: those made before the first
   * `Write` or `WriteHeader`. Once the status is committed, net/http
   * snapshots the header map the next time the handler asks for it, so later
   * settings are not sent.
   */
  function SentHeaders(acts: seq<Action>): (sent: seq<Action>)
    ensures |sent| <= |acts| && sent == acts[..|sent|]
    ensures forall i :: 0 <= i < |sent| ==> sent[i].SetHeader?
    ensures |sent| < |acts| ==> !acts[|sent|].SetHeader?
  {
    if acts == [] || !acts[0].SetHeader? then []
    else [acts[0]] + SentHeaders(acts[1..])
  }

  /** Headers set before any status or body are all sent, whatever follows. */
  lemma {:induction false} SentHeadersKeepsPrefix(pre: seq<Action>, rest: seq<Action>)
    requires forall i :: 0 <= i < |pre| ==> pre[i].SetHeader?
    ensures SentHeaders(pre + rest) == pre + SentHeaders(rest)
  {
    if pre == [] {
      assert pre + rest == rest;
    } else {
      assert (pre + rest)[0] == pre[0];
      assert (pre + rest)[1..] == pre[1..] + rest;
      SentHeadersKeepsPrefix(pre[1..], rest);
    }
  }
}
