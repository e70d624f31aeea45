/** Option values, standing for Go's nil values and missing map keys. */
module Prelude {
  datatype Option<+T> = None | Some(value: T)

  // A Go call that returns a value and an error.
  datatype Result<+T> = Ok(value: T) | Err

  /** The elements of `s` are pairwise distinct. */
  ghost predicate Distinct<T>(s: seq<T>) {
    forall i, j :: 0 <= i < j < |s| ==> s[i] != s[j]
  }
}
