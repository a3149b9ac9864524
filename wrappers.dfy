/** Go's nilable values and (value, error) result pairs. */
module Wrappers {

  datatype Option<+T> = None | Some(value: T)

  datatype Result<+T, +E> = Success(value: T) | Failure(error: E) {

    /** The error half of a Go (value, error) pair: nil on success. */
    function Err(): (e: Option<E>)
      ensures e.Some? <==> Failure?
    {
      match this
      case Success(_) => None
      case Failure(err) => Some(err)
    }
  }
}
