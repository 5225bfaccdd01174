/** Failure-carrying wrappers shared by every module of the model.

    A C# reference that may be null becomes an `Option`; a call that may throw
    becomes a `Result` whose failure names the exception. */
module Common {

  /** A nullable reference: `None` stands for C#'s `null`. */
  datatype Option<+T> = None | Some(value: T)

  /** The exceptions the modelled code can raise. */
  datatype Error =
    | NullReference     // a member access on a null list, or a Transform with no position at all
    | ConversionFailed  // "Can't convert List/array to Vector3": a component list whose length is not 3
    | ArgumentOutOfRange // List<T> indexer used at or past its Count

  /** The value of a call that either returns or throws. */
  datatype Result<+T> = Success(value: T) | Failure(error: Error)

  function Max(a: int, b: int): (m: int)
    ensures m >= a && m >= b
    ensures m == a || m == b
  {
    if a >= b then a else b
  }
}
