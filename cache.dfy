/**
 * The shared cache of src/utils/cache.js as an abstract key/value map. Each
 * entry records the time-to-live it was stored with; expiry itself happens
 * inside the caching library and is not modelled: a stored entry stays.
 */
module KeyValueCache {
  import opened Wrappers

  datatype Entry<V> = Entry(value: V, ttlSeconds: nat)

  class Cache<V> {
    var entries: map<string, Entry<V>>

    constructor ()
      ensures entries == map[]
    {
      entries := map[];
    }

    /** `cache.get(key)`: the stored value, or undefined. */
    function Get(key: string): (r: Option<V>)
      reads this
      ensures r.Some? <==> key in entries
      ensures r.Some? ==> r.value == entries[key].value
    {
      if key in entries then Some(entries[key].value) else None
    }

    /** `cache.set(key, value, ttl)` */
    method Set(key: string, value: V, ttlSeconds: nat)
      modifies this
      ensures entries == old(entries)[key := Entry(value, ttlSeconds)]
    {
      entries := entries[key := Entry(value, ttlSeconds)];
    }
  }
}
