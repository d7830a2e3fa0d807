/** The process-wide cache the options accessor reads through: a map from cache keys to mappings, with no expiry. */
module Cache {
  import opened Arr

  class Store {
    var entries: map<string, Mapping>

    constructor ()
      ensures entries == map[]
    {
      entries := map[];
    }

    /** `Cache::rememberForever($key, ...)` once its producer has run: store the produced mapping. */
    method Remember(key: string, m: Mapping)
      modifies this
      ensures entries == old(entries)[key := m]
    {
      entries := entries[key := m];
    }

    /** `Cache::forget($key)`. */
    method Forget(key: string)
      modifies this
      ensures entries == old(entries) - {key}
    {
      entries := entries - {key};
    }
  }
}
