/** Optional values and the outcome of an operation that can fail. */
module Wrappers {

  datatype Option<+T> = None | Some(value: T)

  datatype Result<+T, +E> = Success(value: T) | Failure(error: E)

  /** Sequencing of two outcomes: the first failure wins, otherwise the lists are joined. */
  function Then<T, E>(first: Result<seq<T>, E>, second: Result<seq<T>, E>): Result<seq<T>, E>
  {
    match first
    case Failure(e) => Failure(e)
    case Success(xs) =>
      match second
      case Failure(e) => Failure(e)
      case Success(ys) => Success(xs + ys)
  }

  /** The elements of an option as a list of length zero or one. */
  function ToSeq<T>(o: Option<T>): seq<T>
  {
    match o
    case None => []
    case Some(x) => [x]
  }
}
