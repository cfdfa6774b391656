/** What several modules say about values and lists. */
module Collections {
  datatype Option<T> = None | Some(value: T)

  predicate Distinct<T(==)>(s: seq<T>) { forall i, j :: 0 <= i < j < |s| ==> s[i] != s[j] }
}
