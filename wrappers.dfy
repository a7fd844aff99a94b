/** Option and Result, the two failure-carrying shapes the model uses.
    Option.None stands for JavaScript's `undefined`; Result.Failure carries
    the message of a thrown Error. */
module Wrappers {

  datatype Option<+T> = None | Some(value: T)

  datatype Result<+T> = Success(value: T) | Failure(error: string)
}
