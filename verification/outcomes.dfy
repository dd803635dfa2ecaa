/** Failure-carrying wrappers shared by the model: `Option` stands for Swift's optionals
    (`Setup?`, `UnsafeMutablePointer?`) and `Result` for a call that may throw. */
module Outcomes {

  /** Swift's `T?`: `None` is `nil`. */
  datatype Option<+T> = None | Some(value: T)

  /** The outcome of a throwing call: a value, or the error it threw. */
  datatype Result<+R, +E> = Success(value: R) | Failure(error: E) {

    /** `try?`: a thrown error becomes `nil`. */
    function ToOption(): (o: Option<R>)
      ensures o.Some? <==> Success?
      ensures o.Some? ==> o.value == value
    {
      match this
      case Success(v) => Some(v)
      case Failure(_) => None
    }
  }
}
