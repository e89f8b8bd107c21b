/** Value-level stand-ins for JavaScript's null/undefined, thrown errors and
    settled promises. */
module Outcomes {

  /** A value that may be absent (`T | null` in the TypeScript types). */
  datatype Option<+T> = None | Some(value: T)

  /** The outcome of a call that either returns a value or throws. */
  datatype Result<+T, +E> = Success(value: T) | Failure(error: E)

  /** How an awaited promise settled: fulfilled with a value, or rejected.
      The components never inspect the rejection reason, so it is not kept. */
  datatype Settled<+T> = Fulfilled(value: T) | Rejected
}
