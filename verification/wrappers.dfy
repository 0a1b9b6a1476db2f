/** Failure-carrying results shared by every module of the model. */
module Wrappers {

  /** A value that may be absent: Python's `None` versus a present value. */
  datatype Option<+T> = None | Some(value: T)

  /** The outcome of an operation that may raise. */
  datatype Result<+T> = Success(value: T) | Failure(error: Raised)

  /** The Python exceptions the modelled code can raise. */
  datatype Raised =
    | KeyError         // `del d[k]` with `k` not a key of `d`
    | IndexError       // a tensor index outside the tensor
    | NotDestroyable   // `Sun.destroy`: it raises `NotImplemented(...)`, which is not callable, so Python reports a TypeError
    | ConstructionFailed  // the body-model constructor raised
}
