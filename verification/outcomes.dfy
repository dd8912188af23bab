/** Optional values and the outcome of one request to the remote service. */
module Outcomes {

  /** A value that may be absent (`null` / `undefined` in the component). */
  datatype Option<+T> = None | Some(value: T)

  /** How a request settled: the promise resolved with `value`, or it was
      rejected. The reason of a rejection is only logged, so it is not kept. */
  datatype Outcome<+T> = Success(value: T) | Failure
}
