/** The error values the SDK throws (VecuError and its subclasses) and foreign errors. */
module VecuErrors {

  datatype Failure =
      /** `new VecuError(code, message)`. */
    | VecuError(code: string, message: string)
      /** `new ProviderError(provider, message)`; the code it carries is set by a constructor outside this model. */
    | ProviderError(provider: string, message: string)
      /** `new TimeoutError(message, timeout)`. */
    | TimeoutError(message: string, timeoutMs: int)
      /** Any thrown `Error` that is not a VecuError. */
    | PlainError(message: string)
      /** A thrown value that is not an Error at all, by its `String(value)` text. */
    | NonError(text: string)

  /** `error instanceof VecuError`. */
  predicate IsVecuError(f: Failure) {
    !f.PlainError? && !f.NonError?
  }

  /** `error instanceof Error ? error.message : String(error)`. */
  function Describe(f: Failure): (r: string)
    ensures f.NonError? ==> r == f.text
    ensures !f.NonError? ==> r == f.message
  {
    if f.NonError? then f.text else f.message
  }
}
