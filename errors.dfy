/**
 * The proxy's `ErrorHandler`: a failed round trip is answered with a status
 * chosen from the error, and that status's text as the body.
 */
module ErrorClassifier {
  import opened Response

  /**
   * One link of an error's wrap chain as `errors.Is` and `errors.As` see it.
   * `context.DeadlineExceeded` implements `net.Error` and is `NetError(true)`.
   */
  datatype ErrNode =
    | Eof                       // io.EOF
    | Canceled                  // context.Canceled
    | NetError(timeout: bool)   // a value implementing net.Error, with what its Timeout() reports
    | Other

  /** The error handed to the handler, followed by what successive `Unwrap` calls return. */
  type Chain = seq<ErrNode>

  /** `errors.As(err, &netErr)`: the position of the first `net.Error` in the chain, or -1. */
  function FirstNetError(chain: Chain): (i: int)
    ensures -1 <= i < |chain|
    ensures i == -1 <==> forall k :: 0 <= k < |chain| ==> !chain[k].NetError?
    ensures 0 <= i ==> chain[i].NetError? && forall k :: 0 <= k < i ==> !chain[k].NetError?
  {
    if chain == [] then -1
    else if chain[0].NetError? then 0
    else
      var j := FirstNetError(chain[1..]);
      if j == -1 then -1 else j + 1
  }

  /** The first `net.Error` of the chain reports `timeout`, and no earlier link is a `net.Error`. */
  ghost predicate FirstNetErrorIs(chain: Chain, timeout: bool)
  {
    exists i :: 0 <= i < |chain| && chain[i] == NetError(timeout) && forall k :: 0 <= k < i ==> !chain[k].NetError?
  }

  /**
   * The status the handler writes, its cases tried in order: end of stream
   * anywhere in the chain, then cancellation, then the first `net.Error`
   * (504 if it timed out, 502 if not), and 500 for anything else.
   */
  function StatusFor(chain: Chain): (code: int)
    ensures code in {499, 500, 502, 504}
    ensures code == 499 <==> Eof !in chain && Canceled in chain
    ensures code == 504 <==> Eof !in chain && Canceled !in chain && FirstNetErrorIs(chain, true)
    ensures code == 502 <==> Eof in chain || (Canceled !in chain && FirstNetErrorIs(chain, false))
    ensures code == 500 <==>
      Eof !in chain && Canceled !in chain && forall k :: 0 <= k < |chain| ==> !chain[k].NetError?
  {
    if Eof in chain then 502
    else if Canceled in chain then 499
    else
      var i := FirstNetError(chain);
      if i == -1 then 500
      else if chain[i].timeout then 504
      else 502
  }

  /** `http.StatusText` for the codes the handler can choose; 499 is not a registered code and has no text. */
  function StatusText(code: int): string
  {
    match code
    case 500 => "Internal Server Error"
    case 502 => "Bad Gateway"
    case 504 => "Gateway Timeout"
    case _ => ""
  }

  /** The calls the handler makes: the status, then its text as the body. */
  function ErrorActions(chain: Chain): (acts: seq<Action>)
    ensures |acts| == 2 && acts[0] == WriteHeader(StatusFor(chain))
    ensures acts[1] == Write(Text(StatusText(StatusFor(chain))))
    ensures acts[1] == Write(Text("")) <==> StatusFor(chain) == 499
    ensures EffectiveStatus(acts) == StatusFor(chain)
  {
    [WriteHeader(StatusFor(chain)), Write(Text(StatusText(StatusFor(chain))))]
  }

  /** `ErrorHandler`. */
  method HandleError(w: ResponseWriter, chain: Chain)
    modifies w
    ensures w.actions == old(w.actions) + ErrorActions(chain)
  {
    var code := StatusFor(chain);
    w.WriteHeader(code);
    w.Write(Text(StatusText(code)));
  }

  /** A chain holding both an end of stream and a cancellation is answered 502, whatever their order. */
  lemma EofWinsOverCanceled(chain: Chain)
    requires Eof in chain && Canceled in chain
    ensures StatusFor(chain) == 502
  {
  }

  /** A transport error wrapping an end of stream is 502 even when the outer error timed out. */
  lemma WrappedEofIsBadGateway()
    ensures StatusFor([NetError(true), Eof]) == 502
  {
  }

  /** A context deadline is a timeout: 504. */
  lemma DeadlineIsGatewayTimeout()
    ensures StatusFor([Other, NetError(true)]) == 504
  {
  }
}
