/** Failure-carrying result types shared by the models. */
module Wrappers {

  datatype Option<+T> = None | Some(value: T)

  /** A value or the error that stopped its computation. */
  datatype Result<+T, +E> = Ok(value: T) | Err(error: E)

  /** The outcome of an operation that only changes state: it passed or failed. */
  datatype Outcome<+E> = Pass | Fail(error: E)

  /** Forgets the value of a result, keeping whether it failed and why. */
  function StatusOf<T, E>(r: Result<T, E>): (o: Outcome<E>)
    ensures o.Pass? <==> r.Ok?
    ensures r.Err? ==> o == Fail(r.error)
  {
    match r
    case Ok(_) => Pass
    case Err(e) => Fail(e)
  }
}
