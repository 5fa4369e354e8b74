/** Optional values and error returns shared by every module of the model. */
module Common {

  /** A value that may be absent: SQL NULL, Python None, a row that was not found. */
  datatype Option<+T> = None | Some(value: T)

  /** The outcome of an operation that either produces a value or reports why it did not. */
  datatype Result<+T, +E> = Success(value: T) | Failure(error: E)

  /** Proof helper: concatenation regroups. Used where asserting the
      regrouping inline leaves the solver too large a search. */
  lemma ConcatAssoc<T>(a: seq<T>, b: seq<T>, c: seq<T>)
    ensures a + b + c == a + (b + c)
  {
  }
}
