/** Failure-compatible result types shared by both swap adapters, and the closed
    taxonomy of errors a swap quote request can end in. */
module Results {

  datatype Option<+T> = None | Some(value: T)

  /** The four ways a quote request fails, as the wallet core sees them:
      the pair is not offered, the amount is under the provider's minimum
      (in native units of the source currency), over its maximum, or
      any other thrown error, carried by its message. */
  datatype SwapError =
    | CurrencyError(from: string, to: string)
    | BelowLimit(nativeMin: int)
    | AboveLimit(nativeMax: int)
    | Fault(msg: string)

  /** A value, or the error that was thrown instead. */
  datatype Result<+T> = Success(value: T) | Failure(error: SwapError) {
    predicate IsFailure() { Failure? }

    function PropagateFailure<U>(): Result<U>
      requires Failure?
    {
      Failure(error)
    }

    function Extract(): T
      requires Success?
    {
      value
    }
  }

  /** A check that either passes or throws. */
  datatype Outcome = Pass | Fail(error: SwapError) {
    predicate IsFailure() { Fail? }

    function PropagateFailure<U>(): Result<U>
      requires Fail?
    {
      Failure(error)
    }
  }

  /** What one quoting path did: the provider requests it issued, in order,
      and how it ended. */
  datatype Run<C, Q> = Run(calls: seq<C>, outcome: Result<Q>)
}
