/** The Option datatype and the outcome of a call into an external service. */
module Wrappers {

  datatype Option<+T> = None | Some(value: T)

  /** The outcome of an asynchronous call the model cannot see (the document
      store, the identity provider, the timing service): it either resolves or
      rejects with an error whose message is shown to the user. */
  datatype Outcome = Ok | Err(message: string)
}
