/** Option and Result types shared by the parser and the validator. */
module Wrappers {

  /** A value that may be missing. In the value model `None` plays the part
      of JavaScript's `undefined`. */
  datatype Option<+T> = None | Some(value: T) {

    /** The carried value, or `default` when there is none. */
    function GetOr(default: T): T {
      match this
      case Some(v) => v
      case None => default
    }
  }

  /** Either a computed value or the error that stopped the computation. */
  datatype Result<+R, +E> = Success(value: R) | Failure(error: E) {

    /** Applies `f` to a successful value and leaves a failure untouched. */
    function Map<U>(f: R -> U): (r: Result<U, E>)
      ensures r.Success? <==> this.Success?
      ensures r.Success? ==> r.value == f(this.value)
      ensures r.Failure? ==> r.error == this.error
    {
      match this
      case Success(v) => Success(f(v))
      case Failure(e) => Failure(e)
    }
  }
}
