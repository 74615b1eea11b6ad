/** Small wrapper datatypes shared by the whole model. */
module Wrappers {

  /** A value that may be absent: JavaScript's `undefined`/`null`, PHP's unset property. */
  datatype Option<+T> = None | Some(value: T)

  /** An error thrown by code the model does not see (a library, the database, the network). */
  datatype Exception = Exception(name: string, code: string, message: string)

  /** The outcome of a call into such code: a value, or a thrown error. */
  datatype Fetch<+T> = Fetched(value: T) | Thrown(error: Exception)
}
