// Vocabulary shared by every module.
module Prelude {

  datatype Option<+T> = None | Some(value: T)

  function Get<K, V>(m: map<K, V>, k: K): Option<V> {
    if k in m then Some(m[k]) else None
  }

  function Min(a: int, b: int): int { if a <= b then a else b }

  function Max(a: int, b: int): int { if a <= b then b else a }

  ghost predicate NoDuplicates<T(!new)>(s: seq<T>) {
    forall i, j :: 0 <= i < j < |s| ==> s[i] != s[j]
  }

  lemma NoDuplicatesSplit<T(!new)>(a: seq<T>, b: seq<T>, x: T)
    requires NoDuplicates(a + b)
    requires x in b
    ensures x !in a
  {
    var j :| 0 <= j < |b| && b[j] == x;
    assert (a + b)[|a| + j] == x;
    forall i | 0 <= i < |a|
      ensures a[i] != x
    {
      assert (a + b)[i] == a[i];
    }
  }
}
