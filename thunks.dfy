/**
 * What every asynchronous request of the slices shares: the value a failed
 * service call throws, the message the thunk rejects with, and how a request
 * settles for the page that awaited it.
 */
module Thunks {
  import opened Wrappers
  import opened Types

  /** A thrown value: an `Error` carrying a message, or anything else. */
  datatype Thrown = ErrorObject(message: string) | NonError

  /** How a dispatched request settles, as the awaiting page sees it: its payload, or the rejection payload. */
  datatype Settlement<T> = Fulfilled(value: T) | Rejected(payload: string)

  /** Product and user thunks: the `Error`'s message unless it is empty, else the fixed fallback. */
  function FallbackMessage(thrown: Thrown, fallback: string): string {
    match thrown
    case ErrorObject(msg) => if msg != "" then msg else fallback
    case NonError => fallback
  }

  /** Order and authentication thunks: the `Error`'s message as it is, the fallback only for other values. */
  function PassThroughMessage(thrown: Thrown, fallback: string): string {
    match thrown
    case ErrorObject(msg) => msg
    case NonError => fallback
  }

  /**
   * With a non-empty fallback the first rule never rejects with an empty
   * message, and the two rules disagree exactly on an `Error` whose message is
   * empty.
   */
  lemma MessageRulesCompared(thrown: Thrown, fallback: string)
    ensures fallback != "" ==> FallbackMessage(thrown, fallback) != ""
    ensures thrown.ErrorObject? && thrown.message != "" ==>
              FallbackMessage(thrown, fallback) == thrown.message == PassThroughMessage(thrown, fallback)
    ensures FallbackMessage(thrown, fallback) != PassThroughMessage(thrown, fallback) <==>
              thrown == ErrorObject("") && fallback != ""
  {
  }

  /** A service result settled as the product and user thunks settle it, with `response.data` as the payload. */
  function SettleWithFallback<T>(r: Result<ApiResponse<T>>, fallback: string): Settlement<T> {
    match r
    case Ok(response) => Fulfilled(response.data)
    case Err(msg) => Rejected(FallbackMessage(ErrorObject(msg), fallback))
  }

  /** A service result settled as the order and authentication thunks settle it. */
  function SettlePassThrough<T>(r: Result<ApiResponse<T>>, fallback: string): Settlement<T> {
    match r
    case Ok(response) => Fulfilled(response.data)
    case Err(msg) => Rejected(PassThroughMessage(ErrorObject(msg), fallback))
  }

  /** The backend only throws `Error`s with non-empty messages, so both rules report its message unchanged. */
  lemma BackendMessagesPassUnchanged<T>(r: Result<ApiResponse<T>>, fallback: string)
    requires r.Err? ==> r.error != ""
    ensures SettleWithFallback(r, fallback) == SettlePassThrough(r, fallback)
    ensures r.Err? ==> SettleWithFallback(r, fallback) == Rejected(r.error)
    ensures r.Ok? ==> SettleWithFallback(r, fallback) == Fulfilled(r.value.data)
  {
  }
}
