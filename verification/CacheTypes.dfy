/** Types shared by every part of the cache model. */
module CacheTypes {

  /** A Go string is a sequence of bytes; so is a cached payload. */
  type Key = seq<bv8>
  type Value = seq<bv8>

  datatype Option<+T> = None | Some(value: T)

  function Min(a: int, b: int): int { if a < b then a else b }
  function Max(a: int, b: int): int { if a < b then b else a }

  function Elements<T>(s: seq<T>): set<T> { set x | x in s }

  ghost predicate NoDuplicates<T>(s: seq<T>) {
    forall i, j :: 0 <= i < j < |s| ==> s[i] != s[j]
  }

  lemma {:induction false} ElementsBound<T>(s: seq<T>)
    ensures |Elements(s)| <= |s|
  {
    if s != [] {
      assert Elements(s) == {s[0]} + Elements(s[1..]);
      ElementsBound(s[1..]);
    } else {
      assert Elements(s) == {};
    }
  }
}
