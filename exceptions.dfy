/**
 * The ways a request can end abnormally, and the outcome of an operation
 * that may throw. Both exception classes of the application are plain
 * carriers of a message (and, for validation, of the offending field
 * names), so they are variants of one datatype here.
 */
module Exceptions {
  datatype Exception =
    | ValidationError(message: string, errors: seq<string>)
    | TeamAlreadyExists(message: string)
      /** Raised by the paging library for a malformed page request. */
    | IllegalArgument(message: string)

  /** What a call produced: a value, or the exception it threw. */
  datatype Outcome<+T> = Returned(value: T) | Thrown(exception: Exception)

  const ValidationMessage := "validation error"
  const AlreadyRegistered := "team already registered"
  const PageIndexNegative := "Page index must not be less than zero"
  const PageSizeTooSmall := "Page size must not be less than one"
}
