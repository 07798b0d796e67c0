/** The in-memory cache as the lookup core sees it: a fixed snapshot of
    key -> value and key -> value-set data. Writers are not modelled: the
    snapshot is a constant of the cache object, so every call on it reads
    the same data, including the separate lookups of one request's groups,
    between which a concurrent writer could change the real cache. */
module KvCache {

  /** One point-in-time view of the cache's two mappings. Value sets are
      unordered sets of strings, as the cache stores them. */
  datatype Snapshot = Snapshot(keyValues: map<string, string>, keyValueSets: map<string, set<string>>)
  {
    /** Point lookup: exactly the requested keys that are present, with
        their values; absent keys are simply omitted. */
    function KeyValuePairs(keys: set<string>): (pairs: map<string, string>)
      ensures pairs.Keys == keys * keyValues.Keys
      ensures forall k :: k in pairs ==> pairs[k] == keyValues[k]
    {
      map k | k in keys && k in keyValues :: keyValues[k]
    }

    /** The value set of one key, empty when the key is absent. */
    function ValueSet(key: string): set<string>
    {
      if key in keyValueSets then keyValueSets[key] else {}
    }

    /** Value-set lookup: a view that answers, for every requested key, the
        key's value set in this snapshot. */
    function KeyValueSet(keys: set<string>): (view: ValueSetView)
      ensures forall k :: k in keys ==> view.GetValueSet(k) == ValueSet(k)
      ensures view.sets.Keys <= keys
    {
      ValueSetView(map k | k in keys && k in keyValueSets :: keyValueSets[k])
    }
  }

  /** The result view of a value-set lookup; it holds the data of the
      requested keys only. */
  datatype ValueSetView = ValueSetView(sets: map<string, set<string>>)
  {
    /** The value set of `key`: empty, not an error, when the key is absent,
        which is the case for every key the lookup was not asked for. */
    function GetValueSet(key: string): (values: set<string>)
      ensures key !in sets ==> values == {}
      ensures values != {} ==> key in sets && values == sets[key]
    {
      if key in sets then sets[key] else {}
    }
  }

  /** A call made on the cache, with the key set it was given. */
  datatype CacheCall = PairsLookup(keys: set<string>) | ValueSetLookup(keys: set<string>)

  /** The cache object shared read-only by the request path; its data never
      changes between calls. `lookups` is ghost instrumentation: the calls
      made on the cache, in order. */
  class Cache {
    const snapshot: Snapshot
    ghost var lookups: seq<CacheCall>

    constructor (snapshot: Snapshot)
      ensures this.snapshot == snapshot && lookups == []
    {
      this.snapshot := snapshot;
      lookups := [];
    }

    method GetKeyValuePairs(keys: set<string>) returns (pairs: map<string, string>)
      modifies this
      ensures pairs == snapshot.KeyValuePairs(keys)
      ensures lookups == old(lookups) + [PairsLookup(keys)]
    {
      pairs := snapshot.KeyValuePairs(keys);
      lookups := lookups + [PairsLookup(keys)];
    }

    method GetKeyValueSet(keys: set<string>) returns (view: ValueSetView)
      modifies this
      ensures view == snapshot.KeyValueSet(keys)
      ensures lookups == old(lookups) + [ValueSetLookup(keys)]
    {
      view := snapshot.KeyValueSet(keys);
      lookups := lookups + [ValueSetLookup(keys)];
    }
  }
}
