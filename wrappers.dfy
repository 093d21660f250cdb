/** Option and Result, the two wrappers the model uses for JavaScript's
    `undefined` and for operations that can throw. */
module Wrappers {

  datatype Option<T> = None | Some(value: T)

  /** The outcome of a JavaScript operation that either returns a value or
      throws (`TypeError` on a property read of `undefined`). */
  datatype Result<T> = Ok(value: T) | TypeError(reason: string)
}
