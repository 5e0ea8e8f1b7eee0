/** Small shared vocabulary of the model. */
module Prelude {

  /** A nullable column, or the outcome of a statement that may raise. */
  datatype Option<+T> = None | Some(value: T)

  /** No value occurs twice: a unique index over the listed column. */
  ghost predicate Distinct<T>(xs: seq<T>) {
    forall i, j :: 0 <= i < j < |xs| ==> xs[i] != xs[j]
  }
}
