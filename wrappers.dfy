/** Option and Result, the two failure-carrying datatypes the rest of the model uses, and a sequence fact the proofs share. */
module Wrappers {

  /** A value that may be absent (Python's `None`). */
  datatype Option<+T> = None | Some(value: T)

  /** A computation that either produced a value or raised. */
  datatype Result<+T, +E> = Success(value: T) | Failure(error: E)

  /** Concatenation regroups freely; proofs about logs that grow by appending call this at each step. */
  lemma SeqAssoc<T>(a: seq<T>, b: seq<T>, c: seq<T>)
    ensures (a + b) + c == a + (b + c)
  {
  }
}
