/** Option and Result: how the model writes Go's `(value, error)` returns. */
module Wrappers {

  datatype Option<+T> = None | Some(value: T)

  /** `Ok(v)` is a nil error with result `v`; `Err(e)` is a non-nil error `e`. */
  datatype Result<+T, +E> = Ok(value: T) | Err(error: E)

  /** A Go map lookup with its `ok` flag: the value stored under `k`, if any. */
  function Lookup<K, V>(m: map<K, V>, k: K): (r: Option<V>)
    ensures r.Some? <==> k in m
    ensures r.Some? ==> r.value == m[k]
  {
    if k in m then Some(m[k]) else None
  }
}
