/** Failure-carrying result types shared by every module of the model. */
module Wrappers {

  /** A value that may be absent (`std::optional`, a missing node, a lookup miss). */
  datatype Option<+T> = None | Some(value: T)

  /** The outcome of a call into a collaborator that may fail with a message. */
  datatype Result<+T, +E> = Ok(value: T) | Err(error: E)
}
