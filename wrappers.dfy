/** Optional values and success-or-failure results, used for Python's
    `Optional[...]` arguments and for the exceptions the client raises. */
module Wrappers {

  datatype Option<+T> = None | Some(value: T)

  datatype Result<+R, +E> = Success(value: R) | Failure(error: E) {

    /** Keeps a success as it is and rewraps a failure's error. */
    function MapFailure<NewE>(rewrap: E -> NewE): (r: Result<R, NewE>)
      ensures r.Success? <==> this.Success?
      ensures r.Success? ==> r.value == this.value
      ensures r.Failure? ==> r.error == rewrap(this.error)
    {
      match this
      case Success(v) => Success(v)
      case Failure(e) => Failure(rewrap(e))
    }
  }
}
