/** Failure-carrying return values: the model's stand-in for Java's null,
    its exceptions and Assert.fail(). */
module Wrappers {

  datatype Option<+T> = None | Some(value: T)

  datatype Result<+R, +E> = Ok(value: R) | Err(error: E)
}
