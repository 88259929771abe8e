/** What several components share. */
module Common {
  datatype Option<+T> = None | Some(value: T)

  predicate NoRepeat<T(==)>(s: seq<T>) { forall i, j :: 0 <= i < j < |s| ==> s[i] != s[j] }
}
