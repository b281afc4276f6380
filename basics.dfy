/** Option, shared by the namespace and interpreter models. */
module Basics {

  datatype Option<T> = None | Some(value: T)

  /** Has no element twice. */
  predicate NoDuplicates<T(==)>(xs: seq<T>) {
    forall i, j :: 0 <= i < j < |xs| ==> xs[i] != xs[j]
  }
}
