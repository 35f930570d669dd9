/** Optional values: a JavaScript lookup that yields `undefined`/`null` becomes None. */
module Wrappers {
  datatype Option<+T> = None | Some(value: T)

  /** Map lookup in the style of `obj[key]`: None when the key is absent. */
  function Get<K, V>(m: map<K, V>, k: K): (r: Option<V>)
    ensures r.None? <==> k !in m
    ensures r.Some? ==> r.value == m[k]
  {
    if k in m then Some(m[k]) else None
  }

  /** JavaScript truthiness of an optional string: present and non-empty. */
  predicate Truthy(field: Option<string>) {
    field.Some? && field.value != ""
  }
}
