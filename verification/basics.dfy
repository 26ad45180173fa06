/** Option and Result carriers shared by every module of the model, and one
    fact about sequences the proofs use. */
module Basics {

  datatype Option<+T> = None | Some(value: T)

  /** A Go `(value, error)` pair: exactly one of the two is meaningful. */
  datatype Result<+T, +E> = Ok(value: T) | Err(error: E)

  /** Concatenation is associative; stated over any element type so that the
      proof never looks inside the elements. */
  lemma AppendAssoc<T>(x: seq<T>, y: seq<T>, z: seq<T>)
    ensures x + (y + z) == (x + y) + z
  {
  }
}
