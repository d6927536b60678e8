/** Small datatypes shared by every model. */
module Common {
  datatype Option<+T> = None | Some(value: T)

  /** The part of a map whose keys lie in the given set. */
  function Restrict<K, V>(m: map<K, V>, keys: set<K>): (r: map<K, V>)
    ensures r.Keys == m.Keys * keys
    ensures forall k | k in r :: r[k] == m[k]
  {
    m - (m.Keys - keys)
  }

  /** The names in a listing, in no particular order. */
  function Elements<T>(s: seq<T>): (r: set<T>)
    ensures forall x <- s :: x in r
    ensures forall x <- r :: x in s
  {
    set x | x in s
  }

  ghost predicate NoDuplicates<T>(s: seq<T>) {
    forall i, j | 0 <= i < j < |s| :: s[i] != s[j]
  }
}
