/** The outcome of a call into the store, as its callback receives it:
    `(err, result)`. */
module Wrappers {

  /** The error object the store passes as `err`. */
  datatype StoreError = StoreError(message: string)

  datatype Result<T> = Ok(value: T) | Failure(error: StoreError)

  /** A callback that receives only `err`. */
  datatype Outcome = Pass | Fail(error: StoreError)

  datatype Option<T> = None | Some(value: T)
}
