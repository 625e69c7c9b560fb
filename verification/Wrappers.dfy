/** Result types shared by the modules. */
module Wrappers {

  /** A Go pointer that may be nil, or an error value where None is nil. */
  datatype Option<+T> = None | Some(value: T)

  /** A Go pair of a value and an error. */
  datatype Result<+T, +E> = Success(value: T) | Failure(error: E)

  /** The entry of a Go map, None when the key is missing. */
  function Get<K, V>(m: map<K, V>, k: K): Option<V> {
    if k in m then Some(m[k]) else None
  }

  /** The map with the entry of `k` set to `v`, or deleted when `v` is None. */
  function Put<K, V>(m: map<K, V>, k: K, v: Option<V>): map<K, V> {
    match v
    case Some(x) => m[k := x]
    case None => m - {k}
  }

  /** Maps that agree on every key are equal. */
  lemma SameEntries<K, V>(m: map<K, V>, m': map<K, V>)
    requires forall k :: Get(m, k) == Get(m', k)
    ensures m == m'
  {
    forall k ensures k in m <==> k in m' {
      assert Get(m, k) == Get(m', k);
    }
    forall k | k in m ensures m[k] == m'[k] {
      assert Get(m, k) == Get(m', k);
    }
  }
}
