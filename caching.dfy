/** Laravel's Cache facade as both services use it: has, get and put with a time to live. */
module Caching {
  import opened Wrappers

  /** A stored value and the number of seconds it was stored for. */
  datatype Entry<V> = Entry(value: V, ttl: nat)

  /** The cache store; expiry is not modelled, so an entry stays until it is overwritten. */
  class Cache<V> {
    var entries: map<string, Entry<V>>

    constructor ()
      ensures entries == map[]
    {
      entries := map[];
    }

    /** Cache::has. */
    predicate Has(key: string)
      reads this
    {
      key in entries
    }

    /** Cache::get: the stored value, or None (null) when there is none. */
    function Get(key: string): (r: Option<V>)
      reads this
      ensures r.Some? <==> Has(key)
      ensures r.Some? ==> r.value == entries[key].value
    {
      if key in entries then Some(entries[key].value) else None
    }

    /** Cache::put: stores `value` under `key` for `ttl` seconds, replacing what was there. */
    method Put(key: string, value: V, ttl: nat)
      modifies this
      ensures entries == old(entries)[key := Entry(value, ttl)]
      ensures Get(key) == Some(value)
      ensures forall k :: k != key ==> Get(k) == old(Get(k))
    {
      entries := entries[key := Entry(value, ttl)];
    }
  }
}
