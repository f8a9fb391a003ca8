/** Small value wrappers shared by the models of the credentials view and of
    the build-status helpers. */
module Wrappers {

  /** A value that may be absent: JavaScript's `null`/`undefined` or a
      missing optional property. */
  datatype Option<+T> = None | Some(value: T)

  /** How an awaited Promise settles: with a value, or rejected with the
      cause of the failure (a network, authorization or user-abort error). */
  datatype Reply<+T> = Resolved(value: T) | Rejected(cause: string)
}
