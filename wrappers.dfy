/**
 * Stock helpers shared by every module: the optional value used wherever the source tests a
 * pointer or a lookup against null/end(), and the associativity of sequence concatenation,
 * which the solver does not apply on its own.
 */
module Wrappers {

  datatype Option<+T> = None | Some(value: T)

  lemma AppendAssociative<T>(a: seq<T>, b: seq<T>, c: seq<T>)
    ensures a + (b + c) == a + b + c
  {
  }
}
