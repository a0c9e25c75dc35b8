/** Option values and the outcome of a read from the API server. */
module Wrappers {
  datatype Option<+T> = None | Some(value: T)

  /** What a Get returns: the object, a not-found error, or any other error. */
  datatype Read<+T> = Found(value: T) | NotFound | ReadFailed(error: string)
}
