/** Option values and lookups with a default, used by every other module. */
module Wrappers {

  datatype Option<+T> = None | Some(value: T)

  /** The list a table holds under a key; an absent key holds the empty list. */
  function At<K, T>(m: map<K, seq<T>>, k: K): seq<T> {
    if k in m then m[k] else []
  }

  /** The table with one element appended to the list under a key. */
  function Push<K, T>(m: map<K, seq<T>>, k: K, x: T): map<K, seq<T>> {
    m[k := At(m, k) + [x]]
  }
}
