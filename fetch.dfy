/** The network call, abstracted as its outcome. Both widgets chain
    `fetch(url).then(resp => resp.ok ? resp.json() : false).then(handler)`;
    this module says what reaches `handler`. */
module Fetch {
  import opened JsValue

  /** A received response: its `ok` flag and what `resp.json()` yields
      (None when the body is not JSON, so that `resp.json()` rejects). */
  datatype Response = Response(ok: bool, body: Option<Value>)

  /** What `fetch(url)` settles to: rejected on a transport failure, or a response. */
  datatype FetchOutcome = NetworkError | Received(response: Response)

  /** How a promise chain settles: fulfilled with a value, or rejected by
      a throw somewhere along it. */
  datatype Completion = Fulfilled(value: Value) | Rejected

  /** The argument of the second `.then` handler, or None when the chain
      rejects before reaching it. A non-ok response hands on `false`
      without reading the body. */
  function Payload(outcome: FetchOutcome): (data: Option<Value>)
    ensures data.None? <==> outcome.NetworkError? || (outcome.response.ok && outcome.response.body.None?)
    ensures outcome.Received? && !outcome.response.ok ==> data == Some(Bool(false))
    ensures outcome.Received? && outcome.response.ok ==> data == outcome.response.body
  {
    match outcome
    case NetworkError => None
    case Received(resp) => if resp.ok then resp.body else Some(Bool(false))
  }
}
