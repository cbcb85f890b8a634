/** The two failure-carrying shapes the client needs: an optional value
    (JavaScript's `undefined` versus a value) and a value-or-error outcome
    (a returned value versus a thrown `Error` with its message). */
module Wrappers {

  datatype Option<+T> = None | Some(value: T)

  datatype Result<+R, +E> = Success(value: R) | Failure(error: E)
}
