/** Optional values used across the model. */
module Wrappers {

  /** A value that may be missing: an absent cache key, a URL with no key segment. */
  datatype Option<+T> = None | Some(value: T)

  /** The entry stored under `k` in `m`, if any. */
  function Get<K, V>(m: map<K, V>, k: K): (r: Option<V>)
    ensures r.Some? <==> k in m
    ensures r.Some? ==> r.value == m[k]
  {
    if k in m then Some(m[k]) else None
  }
}
