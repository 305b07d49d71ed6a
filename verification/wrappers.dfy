/** Optional values and results with an error, the two shapes the resolvers
    need for nullable GraphQL fields and for a resolver that throws. */
module Wrappers {

  /** A value that may be absent: a nullable GraphQL field or argument. */
  datatype Option<+T> = None | Some(value: T)

  /** The outcome of a resolver call: a value, or the error it throws. */
  datatype Result<+T, +E> = Ok(value: T) | Err(error: E)
}
