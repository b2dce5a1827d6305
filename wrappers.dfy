// Optional values and a sequence fact, shared by every module of the model.
module Wrappers {

  datatype Option<T> = None | Some(value: T)

  /** Concatenation is associative; called where the solver would otherwise search for it. */
  lemma ConcatAssoc<T>(x: seq<T>, y: seq<T>, z: seq<T>)
    ensures x + (y + z) == (x + y) + z
  {
  }
}
