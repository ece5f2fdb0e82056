/**
 * Go error values as far as this program uses them: errors raised by the
 * library, and errors wrapped with `fmt.Errorf("...: %w", err)`.
 */
module Errors {
  import opened Wrappers

  datatype Error =
    | Raised(text: string)
      /** `fmt.Errorf(context + ": %w", cause)` */
    | Wrapped(context: string, cause: Error)

  /** `err.Error()`: a wrapped error prints its context, a colon, then its cause. */
  function Message(e: Error): string
  {
    match e
    case Raised(text) => text
    case Wrapped(context, cause) => context + ": " + Message(cause)
  }

  /** `errors.Unwrap` */
  function Unwrap(e: Error): Option<Error>
  {
    match e
    case Raised(_) => None
    case Wrapped(_, cause) => Some(cause)
  }

  /**
   * `errors.Is`: `target` occurs somewhere on the chain of causes of `e`.
   * A `Raised` error is identified by its text, where Go compares the error
   * values themselves (for `errors.New`, by pointer); no property of this
   * model depends on telling two equal texts apart.
   */
  predicate Is(e: Error, target: Error)
  {
    e == target || (e.Wrapped? && Is(e.cause, target))
  }

  /** `fmt.Errorf(context + ": %w", cause)` */
  function Wrap(context: string, cause: Error): (e: Error)
    ensures Unwrap(e) == Some(cause)
    ensures Message(e) == context + ": " + Message(cause)
    ensures Is(e, cause)
  {
    Wrapped(context, cause)
  }
}
