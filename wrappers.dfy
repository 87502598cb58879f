/** Failure-carrying values shared by the route and catalog models.
    A JavaScript `throw` or a rejected promise becomes `Err`; an absent
    object property (`undefined`) becomes `None`. */
module Wrappers {

  datatype Option<+T> = None | Some(value: T)

  /** The outcome of a call that either returns a value or throws an error
      whose message is `error`. */
  datatype Result<+T> = Ok(value: T) | Err(error: string)
}
