/**
 * Option and Result: absent JavaScript values and thrown errors of the mail
 * worker; and the regrouping of concatenations the run folds rely on.
 */
module Wrappers {

  datatype Option<+T> = None | Some(value: T)

  datatype Result<+R, +E> = Ok(value: R) | Err(error: E)

  /** Concatenation regroups freely; stated once so that loop proofs can name the step. */
  lemma Associative<T>(x: seq<T>, y: seq<T>, z: seq<T>)
    ensures x + (y + z) == (x + y) + z
  {
  }
}
