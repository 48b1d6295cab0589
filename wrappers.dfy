/** Optional values, standing for TypeScript's `T | undefined`. */
module Wrappers {

  datatype Option<+T> = None | Some(value: T)

  /** `m.get(k)` on a JavaScript Map: the stored value, or nothing for an absent key. */
  function Get<K, V>(m: map<K, V>, k: K): Option<V>
  {
    if k in m then Some(m[k]) else None
  }
}
