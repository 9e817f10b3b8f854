/** The optional value used for the `None`-able fields of the model. */
module Wrappers {

  datatype Option<+T> = None | Some(value: T)

  /** Dictionary lookup with a missing key giving `None` (Python's `dict.get`). */
  function Get<K, V>(m: map<K, V>, k: K): (r: Option<V>)
    ensures r.Some? <==> k in m
    ensures r.Some? ==> r.value == m[k]
  {
    if k in m then Some(m[k]) else None
  }
}
