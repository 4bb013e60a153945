/** Optional values and failure-carrying results: the model's stand-in for
    the C# exceptions thrown by the memory indexer and by the dispatcher. */
module Outcomes {

  datatype Option<+T> = None | Some(value: T)

  datatype Result<+T, +E> = Ok(value: T) | Err(error: E)

  /** The result of an operation that either completes or fails with an error. */
  datatype Outcome<+E> = Pass | Fail(error: E)
}
