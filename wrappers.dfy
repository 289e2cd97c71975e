/** Option and Result, used for the sentinel "None" file names and for the
    working-directory guard that raises in the original program. */
module Wrappers {

  datatype Option<+T> = None | Some(value: T)

  datatype Result<+R, +E> = Success(value: R) | Failure(error: E)
}
