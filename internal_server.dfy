/** The local variant of the lookup interface: point lookups, value-set
    lookups and set-algebra queries answered in-process against the cache.
    The query scanner, parser, driver and evaluator are not part of this
    model: a LocalLookup is given the parser as a function from the query
    text to the parser's return code and the driver's root node. */
module InternalServer {
  import opened Wrappers
  import opened StatusCodes
  import opened Metrics
  import opened KvCache

  /** Counter bumped once for every requested key whose value set is empty. */
  const KeysetNotFound: string := "KeysetNotFound"
  /** Latency recorded around every query. */
  const LocalRunQuery: string := "LocalRunQuery"

  /** The per-key result of a lookup: exactly one of a value, the values of
      a value set, or a status. */
  datatype SingleLookupResult =
    | ValueResult(value: string)
    | KeysetResult(values: seq<string>)
    | StatusResult(status: Status)

  /** The result of a key that has nothing in the cache. */
  const NotFoundResult := StatusResult(KeyNotFound)

  datatype InternalLookupResponse = InternalLookupResponse(kvPairs: map<string, SingleLookupResult>)

  datatype InternalRunQueryResponse = InternalRunQueryResponse(elements: seq<string>)

  /** The root node the query driver holds after a successful parse: the
      keys of its leaves, and its evaluation given a callback that resolves a
      leaf key to its value set. */
  datatype QueryNode = QueryNode(keys: set<string>, eval: (string -> set<string>) -> Result<set<string>, Status>)

  /** What parsing a query leaves behind: the parser's return code (zero on
      success) and the driver's root node, meaningful only on success. */
  datatype ParseOutcome = ParseOutcome(code: int, root: QueryNode)

  /** The outcome of RunQuery. EarlyOkStatus is the early return on an
      empty query, which hands absl::OkStatus() to a StatusOr: no response. */
  datatype RunQueryResult =
    | EarlyOkStatus
    | Failed(status: Status)
    | Answered(response: InternalRunQueryResponse)

  /** No element occurs twice in `r`. */
  ghost predicate Distinct(r: seq<string>)
  {
    forall i, j :: 0 <= i < j < |r| ==> r[i] != r[j]
  }

  /** `r` lists every element of `s` exactly once, in some order: what
      copying an unordered set into a repeated field produces. */
  ghost predicate Enumerates(r: seq<string>, s: set<string>)
  {
    Distinct(r) && forall x :: x in r <==> x in s
  }

  /** An enumeration of a set is as long as the set is large. */
  lemma {:induction false} EnumerationLength(r: seq<string>, s: set<string>)
    requires Enumerates(r, s)
    ensures |r| == |s|
  {
    if r != [] {
      var x := r[|r| - 1];
      var front := r[..|r| - 1];
      forall y | y in front
        ensures y in s - {x}
      {
        var i :| 0 <= i < |front| && front[i] == y;
        assert r[i] == y;
      }
      forall y | y in s - {x}
        ensures y in front
      {
        var i :| 0 <= i < |r| && r[i] == y;
        assert i != |r| - 1;
        assert front[i] == y;
      }
      assert Enumerates(front, s - {x});
      EnumerationLength(front, s - {x});
    }
  }

  /** Copies the elements of a set into a sequence, in the set's (arbitrary)
      iteration order, as `Add(begin, end)` and `Assign(begin, end)` do. */
  method CopyElements(s: set<string>) returns (r: seq<string>)
    ensures Enumerates(r, s)
  {
    r := [];
    var remaining := s;
    while remaining != {}
      invariant remaining <= s
      invariant Distinct(r)
      invariant forall x :: x in r <==> x in s && x !in remaining
      decreases remaining
    {
      var x :| x in remaining;
      r := r + [x];
      remaining := remaining - {x};
    }
  }

  /** The point-lookup entry of `key` given the pairs the cache returned. */
  function PointEntry(pairs: map<string, string>, key: string): SingleLookupResult
  {
    if key in pairs then ValueResult(pairs[key]) else NotFoundResult
  }

  /** A point-lookup response for `keys` against `snap`: one entry per
      requested key and no other, each the key's value or NotFound. */
  ghost predicate IsPointResponse(snap: Snapshot, keys: set<string>, response: InternalLookupResponse)
  {
    && response.kvPairs.Keys == keys
    && forall k :: k in keys ==> response.kvPairs[k] == PointEntry(snap.keyValues, k)
  }

  /** The requested keys whose value set is empty in `snap`. */
  function UnresolvedKeys(snap: Snapshot, keys: set<string>): set<string>
  {
    set k | k in keys && snap.ValueSet(k) == {}
  }

  /** Adding one key to the keys looked at so far adds one unresolved key
      exactly when that key's value set is empty. */
  lemma UnresolvedKeysStep(snap: Snapshot, done: set<string>, key: string)
    requires key !in done
    ensures |UnresolvedKeys(snap, done + {key})|
      == |UnresolvedKeys(snap, done)| + (if snap.ValueSet(key) == {} then 1 else 0)
  {
    if snap.ValueSet(key) == {} {
      assert UnresolvedKeys(snap, done + {key}) == UnresolvedKeys(snap, done) + {key};
    } else {
      assert UnresolvedKeys(snap, done + {key}) == UnresolvedKeys(snap, done);
    }
  }

  /** The keyset-lookup entry of a key with value set `valueSet`: NotFound
      when the set is empty, otherwise its elements and no status. */
  ghost predicate IsKeysetEntry(entry: SingleLookupResult, valueSet: set<string>)
  {
    if valueSet == {} then entry == NotFoundResult
    else entry.KeysetResult? && Enumerates(entry.values, valueSet)
  }

  /** A keyset-lookup response for `keys` against `snap`. */
  ghost predicate IsKeysetResponse(snap: Snapshot, keys: set<string>, response: InternalLookupResponse)
  {
    && response.kvPairs.Keys == keys
    && forall k :: k in keys ==> IsKeysetEntry(response.kvPairs[k], snap.ValueSet(k))
  }

  /** The NotFound entries of a keyset response are exactly the keys the
      KeysetNotFound counter was bumped for. */
  lemma NotFoundEntriesAreCounted(snap: Snapshot, keys: set<string>, response: InternalLookupResponse)
    requires IsKeysetResponse(snap, keys, response)
    ensures (set k | k in response.kvPairs && response.kvPairs[k] == NotFoundResult) == UnresolvedKeys(snap, keys)
  {
  }

  /** The callback bound into the query driver: leaf keys resolve through
      the view the cache returned, and a key the view does not hold
      resolves to the empty set. */
  function Resolver(view: ValueSetView): (resolve: string -> set<string>)
    ensures forall k :: k !in view.sets ==> resolve(k) == {}
  {
    k => view.GetValueSet(k)
  }

  /** The callback over a lookup of `keys` answers each requested key with
      its value set in the snapshot, and every other key with the empty set,
      whatever the snapshot holds for it. */
  lemma ResolverOverLookup(snap: Snapshot, keys: set<string>, k: string)
    ensures k in keys ==> Resolver(snap.KeyValueSet(keys))(k) == snap.ValueSet(k)
    ensures k !in keys ==> Resolver(snap.KeyValueSet(keys))(k) == {}
  {
    var view := snap.KeyValueSet(keys);
    assert k !in keys ==> k !in view.sets;
  }

  /** Leaf keys resolved one at a time, straight from the snapshot. */
  function DirectResolver(snap: Snapshot): string -> set<string>
  {
    k => snap.ValueSet(k)
  }

  /** The evaluation of a parsed query whose leaves were fetched from `snap`
      in one batched value-set lookup of the root's keys. */
  function QueryAnswer(snap: Snapshot, root: QueryNode): Result<set<string>, Status>
  {
    root.eval(Resolver(snap.KeyValueSet(root.keys)))
  }

  /** Two callbacks that agree on every key of `keys`. */
  ghost predicate AgreeOn(f: string -> set<string>, g: string -> set<string>, keys: set<string>)
  {
    forall k :: k in keys ==> f(k) == g(k)
  }

  /** The evaluator consults the callback on the root's leaf keys only. */
  ghost predicate ReadsOnlyLeaves(root: QueryNode)
  {
    forall f, g :: AgreeOn(f, g, root.keys) ==> root.eval(f) == root.eval(g)
  }

  /** Batching is sound: when the evaluator reads only leaf keys, fetching
      every leaf in one call and then evaluating gives what resolving each
      leaf against the cache would give. */
  lemma BatchedLookupMatchesDirect(snap: Snapshot, root: QueryNode)
    requires ReadsOnlyLeaves(root)
    ensures QueryAnswer(snap, root) == root.eval(DirectResolver(snap))
  {
    assert AgreeOn(Resolver(snap.KeyValueSet(root.keys)), DirectResolver(snap), root.keys);
  }

  /** The in-process lookup over a cache. `parsedQueries` is ghost
      instrumentation: the queries handed to the parser, in order. */
  class LocalLookup {
    const cache: Cache
    const metrics: MetricsRecorder
    const parse: string -> ParseOutcome
    ghost var parsedQueries: seq<string>

    constructor (cache: Cache, metrics: MetricsRecorder, parse: string -> ParseOutcome)
      ensures this.cache == cache && this.metrics == metrics && this.parse == parse
      ensures parsedQueries == []
    {
      this.cache := cache;
      this.metrics := metrics;
      this.parse := parse;
      parsedQueries := [];
    }

    /** Point lookup of a key set. */
    method ProcessKeys(keys: set<string>) returns (response: InternalLookupResponse)
      modifies cache
      ensures IsPointResponse(cache.snapshot, keys, response)
      ensures keys == {} ==> cache.lookups == old(cache.lookups)
      ensures keys != {} ==> cache.lookups == old(cache.lookups) + [PairsLookup(keys)]
    {
      response := InternalLookupResponse(map[]);
      if keys == {} {
        return;
      }
      var pairs := cache.GetKeyValuePairs(keys);
      var remaining := keys;
      while remaining != {}
        invariant remaining <= keys
        invariant response.kvPairs.Keys == keys - remaining
        invariant forall k :: k in response.kvPairs ==> response.kvPairs[k] == PointEntry(pairs, k)
        decreases remaining
      {
        var key :| key in remaining;
        var result;
        if key !in pairs {
          result := StatusResult(Status(NotFoundCode, "Key not found"));
        } else {
          result := ValueResult(pairs[key]);
        }
        response := InternalLookupResponse(response.kvPairs[key := result]);
        remaining := remaining - {key};
      }
    }

    /** Value-set lookup of a key set; each key with an empty set bumps the
        KeysetNotFound counter once. */
    method ProcessKeysetKeys(keys: set<string>) returns (r: Result<InternalLookupResponse, Status>)
      modifies cache, metrics
      ensures r.Success? && IsKeysetResponse(cache.snapshot, keys, r.value)
      ensures metrics.counters == IncrementBy(old(metrics.counters), KeysetNotFound, |UnresolvedKeys(cache.snapshot, keys)|)
      ensures metrics.latencies == old(metrics.latencies)
      ensures keys == {} ==> cache.lookups == old(cache.lookups)
      ensures keys != {} ==> cache.lookups == old(cache.lookups) + [ValueSetLookup(keys)]
    {
      var kvPairs: map<string, SingleLookupResult> := map[];
      if keys == {} {
        return Success(InternalLookupResponse(kvPairs));
      }
      var view := cache.GetKeyValueSet(keys);
      var remaining := keys;
      while remaining != {}
        invariant remaining <= keys
        invariant kvPairs.Keys == keys - remaining
        invariant forall k :: k in kvPairs ==> IsKeysetEntry(kvPairs[k], cache.snapshot.ValueSet(k))
        invariant metrics.counters == IncrementBy(old(metrics.counters), KeysetNotFound, |UnresolvedKeys(cache.snapshot, keys - remaining)|)
        invariant metrics.latencies == old(metrics.latencies)
        invariant cache.lookups == old(cache.lookups) + [ValueSetLookup(keys)]
        decreases remaining
      {
        var key :| key in remaining;
        ghost var done := keys - remaining;
        var result;
        var valueSet := view.GetValueSet(key);
        if valueSet == {} {
          result := StatusResult(Status(NotFoundCode, "Key not found"));
          IncrementAfterIncrementBy(old(metrics.counters), KeysetNotFound, |UnresolvedKeys(cache.snapshot, done)|);
          metrics.IncrementEventCounter(KeysetNotFound);
        } else {
          var values := CopyElements(valueSet);
          result := KeysetResult(values);
        }
        UnresolvedKeysStep(cache.snapshot, done, key);
        kvPairs := kvPairs[key := result];
        remaining := remaining - {key};
        assert keys - remaining == done + {key};
      }
      return Success(InternalLookupResponse(kvPairs));
    }

    /** Runs a set-algebra query: parse, fetch every leaf's value set in one
        cache call, then evaluate. The latency of every call is recorded. */
    method ProcessQuery(query: string) returns (r: RunQueryResult)
      modifies this, cache, metrics
      ensures metrics.counters == old(metrics.counters)
      ensures metrics.latencies == old(metrics.latencies) + [LocalRunQuery]
      ensures query == [] ==> r == EarlyOkStatus
      ensures query == [] ==> parsedQueries == old(parsedQueries) && cache.lookups == old(cache.lookups)
      ensures query != [] ==> parsedQueries == old(parsedQueries) + [query]
      ensures query != [] && parse(query).code != 0 ==>
        r == Failed(ParsingFailure) && cache.lookups == old(cache.lookups)
      ensures query != [] && parse(query).code == 0 ==>
        var root := parse(query).root;
        var answer := QueryAnswer(cache.snapshot, root);
        && cache.lookups == old(cache.lookups) + [ValueSetLookup(root.keys)]
        && (answer.Failure? ==> r == Failed(answer.error))
        && (answer.Success? ==> r.Answered? && Enumerates(r.response.elements, answer.value))
    {
      if query == [] {
        metrics.RecordLatency(LocalRunQuery);
        return EarlyOkStatus;
      }
      parsedQueries := parsedQueries + [query];
      var outcome := parse(query);
      if outcome.code != 0 {
        metrics.RecordLatency(LocalRunQuery);
        return Failed(Status(InvalidArgumentCode, "Parsing failure."));
      }
      // The driver's callback is bound only now, once the view exists.
      var view := cache.GetKeyValueSet(outcome.root.keys);
      var result := outcome.root.eval(Resolver(view));
      if result.Failure? {
        metrics.RecordLatency(LocalRunQuery);
        return Failed(result.error);
      }
      var elements := CopyElements(result.value);
      metrics.RecordLatency(LocalRunQuery);
      return Answered(InternalRunQueryResponse(elements));
    }

    /** Lookup::GetKeyValues, which forwards to ProcessKeys. */
    method GetKeyValues(keys: set<string>) returns (r: Result<InternalLookupResponse, Status>)
      modifies cache
      ensures r.Success? && IsPointResponse(cache.snapshot, keys, r.value)
      ensures keys == {} ==> cache.lookups == old(cache.lookups)
      ensures keys != {} ==> cache.lookups == old(cache.lookups) + [PairsLookup(keys)]
    {
      var response := ProcessKeys(keys);
      return Success(response);
    }

    /** Lookup::GetKeyValueSet, which forwards to ProcessKeysetKeys. */
    method GetKeyValueSet(keys: set<string>) returns (r: Result<InternalLookupResponse, Status>)
      modifies cache, metrics
      ensures r.Success? && IsKeysetResponse(cache.snapshot, keys, r.value)
      ensures metrics.counters == IncrementBy(old(metrics.counters), KeysetNotFound, |UnresolvedKeys(cache.snapshot, keys)|)
      ensures metrics.latencies == old(metrics.latencies)
      ensures keys == {} ==> cache.lookups == old(cache.lookups)
      ensures keys != {} ==> cache.lookups == old(cache.lookups) + [ValueSetLookup(keys)]
    {
      r := ProcessKeysetKeys(keys);
    }

    /** Lookup::RunQuery, which forwards to ProcessQuery. */
    method RunQuery(query: string) returns (r: RunQueryResult)
      modifies this, cache, metrics
      ensures metrics.counters == old(metrics.counters)
      ensures metrics.latencies == old(metrics.latencies) + [LocalRunQuery]
      ensures query == [] ==> r == EarlyOkStatus
      ensures query == [] ==> parsedQueries == old(parsedQueries) && cache.lookups == old(cache.lookups)
      ensures query != [] ==> parsedQueries == old(parsedQueries) + [query]
      ensures query != [] && parse(query).code != 0 ==>
        r == Failed(ParsingFailure) && cache.lookups == old(cache.lookups)
      ensures query != [] && parse(query).code == 0 ==>
        var root := parse(query).root;
        var answer := QueryAnswer(cache.snapshot, root);
        && cache.lookups == old(cache.lookups) + [ValueSetLookup(root.keys)]
        && (answer.Failure? ==> r == Failed(answer.error))
        && (answer.Success? ==> r.Answered? && Enumerates(r.response.elements, answer.value))
    {
      r := ProcessQuery(query);
    }
  }
}
