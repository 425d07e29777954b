/** Results and sequences shared by the other modules. */
module Common {

  datatype Option<+T> = None | Some(value: T)

  /** What an operation returns, or that it raised. */
  datatype Outcome<+T> = Ok(value: T) | Error

  predicate Distinct<T(==)>(s: seq<T>) {
    forall i, j :: 0 <= i < j < |s| ==> s[i] != s[j]
  }

  function Flat<T>(parts: seq<seq<T>>): seq<T> {
    if parts == [] then [] else Flat(parts[..|parts| - 1]) + parts[|parts| - 1]
  }

  lemma FlatAppend<T>(parts: seq<seq<T>>, xs: seq<T>)
    ensures Flat(parts + [xs]) == Flat(parts) + xs
  {
    assert (parts + [xs])[..|parts|] == parts;
  }

  lemma SubsetSize(a: set<nat>, b: set<nat>)
    requires a <= b
    ensures |a| <= |b|
  {
    assert b == a + (b - a);
  }
}
