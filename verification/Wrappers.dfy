/** The two failure types every other module shares. */
module Wrappers {

  datatype Option<+T> = None | Some(value: T)

  /** Success with a value, or a refusal naming the group of checks that failed. */
  datatype Result<+T, +E> = Ok(value: T) | Err(why: E)
}
