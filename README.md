# Key-value lookup core of the Protected Auction key/value service

This project models the request path that turns requested keys into per-key
results against the server's in-memory cache, and proves what that path
promises.

- **The internal lookup** (`LocalLookup`, module `InternalServer`):
  - point lookups of a key set;
  - value-set lookups of a key set, which bump a `KeysetNotFound` counter once for every key whose set is empty;
  - set-algebra queries: the query is parsed, the value sets of all its leaf keys are fetched in one cache call, and the parsed tree is evaluated over them.
- **The V1 `GetValues` handler** (module `RequestHandler`):
  - A request has four groups of key strings: `kv_internal`, `keys`, `render_urls` and `ad_component_render_urls`.
  - Each non-empty group is split on the query-argument delimiter into individual keys, which are looked up in the cache.
  - The group records one `CacheKeyHit` or `CacheKeyMiss` event.
  - Every individual key's result is merged into that group's result map. The result is a JSON-decoded value, the raw string when the cached value is not JSON, or `NotFound` with "Key not found".
  - With `use_v2` set, the whole request goes to the V2 adapter instead.

Supporting modules:

- `KvCache`: the cache, as one fixed snapshot of a key→value map and a key→value-set map. It carries a ghost log of the lookups made on it, so that "the cache is never consulted" and "the cache is queried exactly once, with these keys" can be stated.
- `Metrics`: the metrics recorder, as a counter map plus a log of latency names.
- `StrSplit`: splitting on one character, as `absl::StrSplit` does, with its round trips against joining.
- `StatusCodes`: the absl status codes and messages used.

Both core files change state step by step. So the model uses:

- classes (`Cache`, `MetricsRecorder`, `LocalLookup`, `GetValuesHandler`, `GetValuesResponse`);
- methods with `modifies` clauses;
- loops over the key sets, which visit keys in an arbitrary order, just as `flat_hash_set` iteration is unspecified.

Each method is proved against a specification function or predicate:

- `IsPointResponse`;
- `IsKeysetResponse`;
- `QueryAnswer`;
- `KeySet`;
- `MergeGroup`, `GroupCounter`, `TallyGroups` and `GroupLookup`.

Lemmas then prove the promised properties about those specifications.

The following external pieces are not modelled, and each class takes them as function values instead:

- the JSON decoder, which becomes `string -> Option<ProtoValue>`;
- the query parser and driver, which become `string -> ParseOutcome`, and the root node's evaluation, which becomes a function of the leaf-resolving callback;
- the V2 adapter, which becomes `GetValuesRequest -> V2Reply`;
- the delimiter `kQueryArgDelimiter`, which becomes a `char` held by the handler.

## Model

| member | source | states |
|---|---|---|
| Metrics.Increment | components/internal_server/local_lookup.cc:102 | an event increment raises the named counter by one and leaves every other counter as it was |
| Metrics.IncrementBy | components/internal_server/local_lookup.cc:97-102 | n increments raise the named counter by n, leave the others alone, and zero increments change nothing |
| Metrics.MetricsRecorder.IncrementEventCounter | components/internal_server/local_lookup.cc:102 | the recorder's counters become the incremented counters, and its latencies do not change |
| Metrics.MetricsRecorder.RecordLatency | components/internal_server/local_lookup.cc:115-116 | the latency name is appended to the log, and the counters do not change |
| KvCache.Snapshot.KeyValuePairs | components/internal_server/local_lookup.cc:70 | a point lookup returns exactly the requested keys present in the cache, each with its cached value |
| KvCache.Snapshot.KeyValueSet | components/internal_server/local_lookup.cc:94-97 | the view answers every requested key with that key's value set (empty when absent), and holds no other key |
| KvCache.ValueSetView.GetValueSet | components/internal_server/local_lookup.cc:97 | a key the view does not hold, in particular one outside the requested set, has the empty value set; a non-empty answer is the set the view holds for the key |
| KvCache.Cache.GetKeyValuePairs | components/internal_server/local_lookup.cc:70 | returns the snapshot's point lookup and logs exactly one PairsLookup with the given keys |
| KvCache.Cache.GetKeyValueSet | components/internal_server/local_lookup.cc:94 | returns the snapshot's value-set view and logs exactly one ValueSetLookup with the given keys |
| StrSplit.Split | components/data_server/request_handler/get_values_handler.cc:53-54 | splitting always yields at least one piece; SplitCount, JoinSplit and SplitJoin pin down the rest, including that empty pieces are kept |
| StrSplit.SplitCount | components/data_server/request_handler/get_values_handler.cc:53-54 | a string with n delimiters splits into n + 1 pieces |
| StrSplit.SplitPiecesAvoidDelimiter | components/data_server/request_handler/get_values_handler.cc:53-54 | no piece contains the delimiter |
| StrSplit.JoinSplit | components/data_server/request_handler/get_values_handler.cc:53-54 | joining the pieces with the delimiter gives back the original string, so splitting loses nothing |
| StrSplit.SplitJoin | components/data_server/request_handler/get_values_handler.cc:53-54 | splitting the join of delimiter-free pieces gives back exactly those pieces |
| InternalServer.EnumerationLength | components/internal_server/local_lookup.cc:104-106 | a repeated field filled from a set has as many elements as the set |
| InternalServer.CopyElements | components/internal_server/local_lookup.cc:104-106 | copying a set into a repeated field lists every element of the set exactly once and nothing else |
| InternalServer.UnresolvedKeysStep | components/internal_server/local_lookup.cc:97-102 | handling one more key adds one to the number of unresolved keys exactly when that key's value set is empty |
| InternalServer.NotFoundEntriesAreCounted | components/internal_server/local_lookup.cc:97-102 | the NotFound entries of a keyset response are exactly the keys whose value set is empty, which are the keys the counter counts |
| InternalServer.Resolver | components/internal_server/local_lookup.cc:119-121 | the driver's callback answers through the value-set view, and a key the view does not hold resolves to the empty set |
| InternalServer.ResolverOverLookup | components/internal_server/local_lookup.cc:119-131 | over the lookup of the root's keys, the callback gives each requested key its value set in the cache, and every key outside the requested set the empty set |
| InternalServer.BatchedLookupMatchesDirect | components/internal_server/local_lookup.cc:119-133 | if the evaluator reads only leaf keys, evaluating over the single batched value-set lookup gives what resolving each leaf straight from the cache gives |
| InternalServer.LocalLookup.ProcessKeys | components/internal_server/local_lookup.cc:63-85 | the response has exactly one entry per requested key: the cached value, or NotFound "Key not found"; an empty key set never reaches the cache, and otherwise the cache is called once with the keys |
| InternalServer.LocalLookup.ProcessKeysetKeys | components/internal_server/local_lookup.cc:87-111 | succeeds with one entry per requested key: NotFound for an empty value set, otherwise the set's elements with no status; KeysetNotFound rises by exactly the number of such keys; an empty key set touches neither cache nor counters |
| InternalServer.LocalLookup.ProcessQuery | components/internal_server/local_lookup.cc:113-140 | records the LocalRunQuery latency on every path; an empty query returns early without parsing or cache access; a parse failure returns InvalidArgument "Parsing failure." with no cache access; otherwise one value-set lookup of the root's keys, then the evaluation error unchanged or the result's elements |
| InternalServer.LocalLookup.GetKeyValues | components/internal_server/local_lookup.cc:45-49 | succeeds with ProcessKeys' response and cache behaviour |
| InternalServer.LocalLookup.GetKeyValueSet | components/internal_server/local_lookup.cc:51-55 | the same response, counters and cache behaviour as ProcessKeysetKeys |
| InternalServer.LocalLookup.RunQuery | components/internal_server/local_lookup.cc:57-60 | the same outcome, latency and cache behaviour as ProcessQuery |
| RequestHandler.KeySetMembership | components/data_server/request_handler/get_values_handler.cc:49-59 | a key is in a group's key set exactly when it is a piece of one of the group's strings (both directions) |
| RequestHandler.GetKeys | components/data_server/request_handler/get_values_handler.cc:49-59 | the nested loops collect exactly the pieces of every request string, so duplicates collapse and no piece is dropped |
| RequestHandler.KeySetCoversRequest | components/data_server/request_handler/get_values_handler.cc:52-56 | every request string is the join of its pieces, and every one of those pieces is in the key set |
| RequestHandler.KeySetAvoidsDelimiter | components/data_server/request_handler/get_values_handler.cc:53-55 | no individual key contains the delimiter |
| RequestHandler.KeySetOfNonEmptyGroup | components/data_server/request_handler/get_values_handler.cc:66-67 | a non-empty group always yields at least one individual key |
| RequestHandler.V1Entry | components/data_server/request_handler/get_values_handler.cc:76-93 | an entry is a status exactly when the key is absent from the cache's pairs, and that status is NotFound "Key not found"; a present key gets the decoded value, or the raw string when decoding fails, and never an error |
| RequestHandler.MergeGroupEntries | components/data_server/request_handler/get_values_handler.cc:66-96 | an empty group leaves the result map unchanged; otherwise every individual key gets its entry and every other key keeps its old entry |
| RequestHandler.HitIffSomeKeyResolved | components/data_server/request_handler/get_values_handler.cc:70-96 | a group records a hit exactly when some merged entry carries a value, and a miss exactly when every entry is NotFound |
| RequestHandler.TallyGroupsAccounting | components/data_server/request_handler/get_values_handler.cc:109-130 | across a request, each non-empty group bumps exactly one of CacheKeyHit and CacheKeyMiss, CacheKeyHit once per group with a resolved key, and no other counter moves |
| RequestHandler.ProcessKeys | components/data_server/request_handler/get_values_handler.cc:61-97 | the caller's result map becomes the merged map; the counters get the group's single hit or miss bump (none for an empty group); the cache is called once with the split keys, or not at all for an empty group |
| RequestHandler.GroupCounterOfPairs | components/data_server/request_handler/get_values_handler.cc:70-73 | the bump for a non-empty group is CacheKeyMiss when the cache returned no pairs, and CacheKeyHit otherwise |
| RequestHandler.FillResults | components/data_server/request_handler/get_values_handler.cc:74-96 | after the loop the map holds an entry for every individual key, computed from the cache's pairs; every other key's entry is unchanged |
| RequestHandler.MergedEntries | components/data_server/request_handler/get_values_handler.cc:74-96 | the entries the loop writes from the returned pairs make up the merged map the specification describes |
| RequestHandler.GroupsUnfold | components/data_server/request_handler/get_values_handler.cc:109-130 | tallying the four groups is tallying kv_internal, keys, render_urls and ad_component_render_urls one after another |
| RequestHandler.GetValuesHandler.ProcessGroup | components/data_server/request_handler/get_values_handler.cc:109-113 | a group is processed only when non-empty; otherwise its field, the counters and the cache are left alone |
| RequestHandler.GetValuesHandler.GetValues | components/data_server/request_handler/get_values_handler.cc:101-132 | with use_v2, the adapter's status and result maps, with no cache call or counter bump of the handler's own; otherwise OK, each group merged into its own response field, the counters tallied over the four groups in order, and one cache call per non-empty group in that order |

## Left out

- The query scanner, parser, driver and evaluator (components/query) are not part of this model. Parsing is a function giving a return code and a root node, which holds the leaf keys and an evaluation function. The set-operation semantics are not stated. The batching lemma assumes the evaluator reads leaf keys only.
- InternalServer.LocalLookup.ProcessQuery: an empty query returns the `EarlyOkStatus` outcome. The source builds a `StatusOr` from `absl::OkStatus()`, which absl treats as a misuse. The model states only that the call returns early, without parsing or touching the cache.
- InternalServer.LocalLookup.ProcessKeysetKeys: value sets are unordered sets. So `keyset_values` is stated to list the set's elements once each, in an unspecified order. The order `GetValueSet` yields is not modelled.
- The late binding of the driver callback to the value-set result pointer is modelled as binding the callback to the view after the single cache call. Reading the pointer before it is set cannot happen in the model.
- The JSON decoder (`JsonStringToMessage`) is an abstract partial function. Numbers are `real`, not IEEE doubles.
- The V2 adapter (`CallV2Handler`) is an abstract function of the request. Any cache calls or metrics it makes itself are not modelled.
- The cache's internals are not modelled: snapshot swapping, concurrent writers and locking. The cache object holds one constant snapshot, so every call on it reads the same data. That includes the up to four separate point lookups of one GetValues request, one per group. In the source, a concurrent writer can change the cache between those lookups, so the groups of one request may see different data; the model does not capture that.
- `RequestContext`, `ScopeMetricsContext`, `VLOG` logging and the gRPC status wrapper are not modelled. They hold no state the core reads.
- Latency durations come from a clock. Only the name of each latency recording is logged.
- The value of `kQueryArgDelimiter` comes from a constants header that is not part of this model. It is a `char` parameter.
- The result map is passed by reference in the source. The model passes it in and returns the updated map.
- The iteration order of `flat_hash_set` and of protobuf maps is unspecified. The loops pick an arbitrary remaining key, and no property depends on the order.
