/** Outcome types shared by the whole model. */
module Outcomes {

  /** A value that may be absent (`null` or `NaN` on the JavaScript side). */
  datatype Option<+T> = None | Some(value: T)

  /** A computation that either returns a value or throws an `Error` whose `message` is kept. */
  datatype Result<+T> = Ok(value: T) | Err(message: string)

  /** What a `catch` clause receives: an `Error` instance with its message, or any other thrown value. */
  datatype Thrown = ErrorValue(message: string) | OtherValue

  /** How an awaited promise settles. */
  datatype Settled<+T> = Fulfilled(value: T) | Rejected(reason: Thrown)

  /** The promise of an `async` function: it fulfils with the returned value or
      rejects with the thrown `Error`. */
  function Settle<T>(r: Result<T>): Settled<T>
  {
    match r
    case Ok(v) => Fulfilled(v)
    case Err(m) => Rejected(ErrorValue(m))
  }

  /** `error instanceof Error ? error.message : fallback`, the message a handler displays. */
  function MessageOr(t: Thrown, fallback: string): string
  {
    match t
    case ErrorValue(m) => m
    case OtherValue => fallback
  }
}
