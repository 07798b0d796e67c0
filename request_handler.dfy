/** The V1 GetValues request handler: each non-empty group of request keys
    is split on the query-argument delimiter, looked up in the cache, and
    merged into that group's result map, with each cached value decoded as
    JSON when it parses and kept as a plain string when it does not. The
    JSON decoder and the V2 adapter are not part of this model: the handler
    is given them as functions. */
module RequestHandler {
  import opened Wrappers
  import opened StatusCodes
  import opened Metrics
  import opened KvCache
  import opened StrSplit

  const CacheKeyHit: string := "CacheKeyHit"
  const CacheKeyMiss: string := "CacheKeyMiss"

  /** google.protobuf.Value: the structured form a JSON value decodes to. */
  datatype ProtoValue =
    | NullValue
    | NumberValue(number: real)
    | StringValue(str: string)
    | BoolValue(flag: bool)
    | StructValue(fields: map<string, ProtoValue>)
    | ListValue(values: seq<ProtoValue>)

  /** The per-key result of a V1 lookup: a value or a status. */
  datatype V1SingleLookupResult = V1Value(value: ProtoValue) | V1Status(status: Status)

  /** The result map of one request group, keyed by individual key. */
  type ResultStruct = map<string, V1SingleLookupResult>

  /** The four independently processed groups of a GetValues request. */
  datatype GetValuesRequest = GetValuesRequest(
    kvInternal: seq<string>,
    keys: seq<string>,
    renderUrls: seq<string>,
    adComponentRenderUrls: seq<string>)

  /** What the V2 adapter answers for a request: its status and the four
      result maps it leaves in the response. */
  datatype V2Reply = V2Reply(
    status: Status,
    kvInternal: ResultStruct,
    keys: ResultStruct,
    renderUrls: ResultStruct,
    adComponentRenderUrls: ResultStruct)

  /** The GetValues response message, filled in place by the handler. */
  class GetValuesResponse {
    var kvInternal: ResultStruct
    var keys: ResultStruct
    var renderUrls: ResultStruct
    var adComponentRenderUrls: ResultStruct

    constructor ()
      ensures kvInternal == map[] && keys == map[] && renderUrls == map[] && adComponentRenderUrls == map[]
    {
      kvInternal, keys, renderUrls, adComponentRenderUrls := map[], map[], map[], map[];
    }
  }

  /** The pieces of one request string, as a set. */
  function Pieces(s: string, delim: char): set<string>
  {
    set p | p in Split(s, delim)
  }

  /** Every piece of every request string, split on `delim`. */
  function KeySet(keys: seq<string>, delim: char): set<string>
  {
    if keys == [] then {} else KeySet(keys[..|keys| - 1], delim) + Pieces(keys[|keys| - 1], delim)
  }

  /** The individual keys are exactly the pieces of the request strings:
      duplicates collapse and no piece is dropped. */
  lemma {:induction false} KeySetMembership(keys: seq<string>, delim: char, p: string)
    ensures p in KeySet(keys, delim) <==> exists i :: 0 <= i < |keys| && p in Split(keys[i], delim)
  {
    if keys != [] {
      var front := keys[..|keys| - 1];
      KeySetMembership(front, delim, p);
      if p in KeySet(front, delim) {
        var i :| 0 <= i < |front| && p in Split(front[i], delim);
        assert keys[i] == front[i];
      }
      if exists i :: 0 <= i < |keys| && p in Split(keys[i], delim) {
        var i :| 0 <= i < |keys| && p in Split(keys[i], delim);
        if i < |front| {
          assert front[i] == keys[i];
        }
      }
    }
  }

  /** Collects the individual keys of a group: every string is split on the
      delimiter and every piece goes into one set. */
  method GetKeys(keys: seq<string>, delim: char) returns (keyList: set<string>)
    ensures keyList == KeySet(keys, delim)
  {
    keyList := {};
    for i := 0 to |keys|
      invariant keyList == KeySet(keys[..i], delim)
    {
      var pieces := Split(keys[i], delim);
      for j := 0 to |pieces|
        invariant keyList == KeySet(keys[..i], delim) + set p | p in pieces[..j]
        invariant pieces == Split(keys[i], delim)
      {
        assert pieces[..j + 1] == pieces[..j] + [pieces[j]];
        keyList := keyList + {pieces[j]};
      }
      assert pieces[..|pieces|] == pieces;
      assert keys[..i + 1][..i] == keys[..i];
    }
    assert keys[..|keys|] == keys;
  }

  /** No piece is dropped: every request string is the join of its pieces,
      and each of those pieces is in the key set. */
  lemma KeySetCoversRequest(keys: seq<string>, delim: char, i: nat)
    requires i < |keys|
    ensures Join(Split(keys[i], delim), delim) == keys[i]
    ensures forall p :: p in Split(keys[i], delim) ==> p in KeySet(keys, delim)
  {
    JoinSplit(keys[i], delim);
    forall p | p in Split(keys[i], delim)
      ensures p in KeySet(keys, delim)
    {
      KeySetMembership(keys, delim, p);
    }
  }

  /** Every individual key is free of the delimiter. */
  lemma KeySetAvoidsDelimiter(keys: seq<string>, delim: char)
    ensures forall p :: p in KeySet(keys, delim) ==> delim !in p
  {
    forall p | p in KeySet(keys, delim)
      ensures delim !in p
    {
      KeySetMembership(keys, delim, p);
      var i :| 0 <= i < |keys| && p in Split(keys[i], delim);
      SplitPiecesAvoidDelimiter(keys[i], delim);
    }
  }

  /** A non-empty group always has at least one individual key. */
  lemma KeySetOfNonEmptyGroup(keys: seq<string>, delim: char)
    requires keys != []
    ensures KeySet(keys, delim) != {}
  {
    var p := Split(keys[0], delim)[0];
    assert 0 <= 0 < |keys| && p in Split(keys[0], delim);
    KeySetMembership(keys, delim, p);
  }

  /** The V1 entry of `key` given the pairs the cache returned: NotFound
      when absent; otherwise the decoded value, or the raw string when it is
      not JSON. A present key never gets a status. */
  function V1Entry(pairs: map<string, string>, key: string, decode: string -> Option<ProtoValue>): (entry: V1SingleLookupResult)
    ensures entry.V1Status? <==> key !in pairs
    ensures entry.V1Status? ==> entry.status == KeyNotFound
    ensures entry.V1Value? ==>
      (decode(pairs[key]) == Some(entry.value) || (decode(pairs[key]) == None && entry.value == StringValue(pairs[key])))
  {
    if key !in pairs then V1Status(KeyNotFound)
    else match decode(pairs[key])
      case Some(v) => V1Value(v)
      case None => V1Value(StringValue(pairs[key]))
  }

  /** The result map of a group after the handler merged the group into it. */
  function MergeGroup(existing: ResultStruct, snap: Snapshot, delim: char,
                      decode: string -> Option<ProtoValue>, group: seq<string>): ResultStruct
  {
    if group == [] then existing
    else existing + map k | k in KeySet(group, delim) :: V1Entry(snap.keyValues, k, decode)
  }

  /** Merging leaves the map unchanged for an empty group; otherwise every
      individual key gets its entry and every other key keeps the entry it
      had. */
  lemma MergeGroupEntries(existing: ResultStruct, snap: Snapshot, delim: char,
                          decode: string -> Option<ProtoValue>, group: seq<string>)
    ensures var merged := MergeGroup(existing, snap, delim, decode, group);
      && (group == [] ==> merged == existing)
      && (group != [] ==> merged.Keys == existing.Keys + KeySet(group, delim))
      && (group != [] ==> forall k :: k in KeySet(group, delim) ==> merged[k] == V1Entry(snap.keyValues, k, decode))
      && (forall k :: k in existing && k !in KeySet(group, delim) ==> merged[k] == existing[k])
  {
  }

  /** The counter a group bumps: none for an empty group, CacheKeyMiss when
      the cache had none of its keys, CacheKeyHit otherwise. */
  function GroupCounter(snap: Snapshot, delim: char, group: seq<string>): Option<string>
  {
    if group == [] then None
    else if |snap.KeyValuePairs(KeySet(group, delim))| == 0 then Some(CacheKeyMiss)
    else Some(CacheKeyHit)
  }

  /** A non-empty group records a hit exactly when some entry merged for it
      carries a value, and a miss exactly when every entry is NotFound. */
  lemma HitIffSomeKeyResolved(existing: ResultStruct, snap: Snapshot, delim: char,
                              decode: string -> Option<ProtoValue>, group: seq<string>)
    requires group != []
    ensures var merged := MergeGroup(existing, snap, delim, decode, group);
      (GroupCounter(snap, delim, group) == Some(CacheKeyHit)
       <==> exists k :: k in KeySet(group, delim) && merged[k].V1Value?)
    ensures var merged := MergeGroup(existing, snap, delim, decode, group);
      (GroupCounter(snap, delim, group) == Some(CacheKeyMiss)
       <==> forall k :: k in KeySet(group, delim) ==> merged[k] == V1Status(KeyNotFound))
  {
    var keys := KeySet(group, delim);
    var pairs := snap.KeyValuePairs(keys);
    var merged := MergeGroup(existing, snap, delim, decode, group);
    MergeGroupEntries(existing, snap, delim, decode, group);
    if |pairs| == 0 {
      forall k | k in keys
        ensures merged[k] == V1Status(KeyNotFound)
      {
        assert k !in pairs;
      }
    } else {
      assert |pairs.Keys| > 0;
      var k :| k in pairs.Keys;
      assert k in keys && merged[k].V1Value?;
    }
  }

  /** The counters after a group's counter, if any, is bumped. */
  function Tally(counters: map<string, nat>, counter: Option<string>): map<string, nat>
  {
    match counter
    case None => counters
    case Some(name) => Increment(counters, name)
  }

  /** The counters after the groups are processed in order. */
  function TallyGroups(counters: map<string, nat>, snap: Snapshot, delim: char, groups: seq<seq<string>>): map<string, nat>
    decreases |groups|
  {
    if groups == [] then counters
    else TallyGroups(Tally(counters, GroupCounter(snap, delim, groups[0])), snap, delim, groups[1..])
  }

  /** The number of non-empty groups. */
  function NonEmptyGroups(groups: seq<seq<string>>): nat
  {
    if groups == [] then 0 else (if groups[0] == [] then 0 else 1) + NonEmptyGroups(groups[1..])
  }

  /** The number of groups that record a hit. */
  function HitGroups(snap: Snapshot, delim: char, groups: seq<seq<string>>): nat
  {
    if groups == [] then 0
    else (if GroupCounter(snap, delim, groups[0]) == Some(CacheKeyHit) then 1 else 0) + HitGroups(snap, delim, groups[1..])
  }

  /** Counter accounting: every non-empty group bumps exactly one of the hit
      and miss counters, the hit counter once per group with a resolved key,
      and no other counter moves. */
  lemma {:induction false} TallyGroupsAccounting(counters: map<string, nat>, snap: Snapshot, delim: char, groups: seq<seq<string>>)
    ensures var after := TallyGroups(counters, snap, delim, groups);
      && Count(after, CacheKeyHit) == Count(counters, CacheKeyHit) + HitGroups(snap, delim, groups)
      && Count(after, CacheKeyHit) + Count(after, CacheKeyMiss)
         == Count(counters, CacheKeyHit) + Count(counters, CacheKeyMiss) + NonEmptyGroups(groups)
      && forall name :: name != CacheKeyHit && name != CacheKeyMiss ==> Count(after, name) == Count(counters, name)
    decreases |groups|
  {
    if groups != [] {
      var next := Tally(counters, GroupCounter(snap, delim, groups[0]));
      TallyGroupsAccounting(next, snap, delim, groups[1..]);
      assert CacheKeyHit != CacheKeyMiss by {
        assert CacheKeyHit[8] != CacheKeyMiss[8];
      }
    }
  }

  /** The cache calls made by one group: none when it is empty. */
  function GroupLookup(delim: char, group: seq<string>): seq<CacheCall>
  {
    if group == [] then [] else [PairsLookup(KeySet(group, delim))]
  }

  /** The groups of a request in the order the handler visits them. */
  function Groups(request: GetValuesRequest): seq<seq<string>>
  {
    [request.kvInternal, request.keys, request.renderUrls, request.adComponentRenderUrls]
  }

  /** Looks up one group of keys and merges the results into the group's
      result map, which the caller passes in and gets back. */
  method ProcessKeys(keys: seq<string>, cache: Cache, metrics: MetricsRecorder, delim: char,
                     decode: string -> Option<ProtoValue>, resultStruct: ResultStruct)
    returns (updated: ResultStruct)
    modifies cache, metrics
    ensures updated == MergeGroup(resultStruct, cache.snapshot, delim, decode, keys)
    ensures metrics.counters == Tally(old(metrics.counters), GroupCounter(cache.snapshot, delim, keys))
    ensures metrics.latencies == old(metrics.latencies)
    ensures cache.lookups == old(cache.lookups) + GroupLookup(delim, keys)
  {
    updated := resultStruct;
    if |keys| == 0 {
      return;
    }
    ghost var counters := metrics.counters;
    var actualKeys := GetKeys(keys, delim);
    var pairs := cache.GetKeyValuePairs(actualKeys);
    if |pairs| == 0 {
      metrics.IncrementEventCounter(CacheKeyMiss);
    } else {
      metrics.IncrementEventCounter(CacheKeyHit);
    }
    updated := FillResults(actualKeys, pairs, decode, resultStruct);
    MergedEntries(resultStruct, cache.snapshot, delim, decode, keys, pairs, updated);
    GroupCounterOfPairs(cache.snapshot, delim, keys, pairs, counters);
  }

  /** The counter bump of a non-empty group, read off the pairs the cache
      returned for its individual keys. */
  lemma GroupCounterOfPairs(snap: Snapshot, delim: char, keys: seq<string>, pairs: map<string, string>,
                            counters: map<string, nat>)
    requires keys != [] && pairs == snap.KeyValuePairs(KeySet(keys, delim))
    ensures Tally(counters, GroupCounter(snap, delim, keys))
            == Increment(counters, if |pairs| == 0 then CacheKeyMiss else CacheKeyHit)
  {
  }

  /** The loop of ProcessKeys: every individual key's entry is written into
      the result map, overwriting what it held for that key. */
  method FillResults(actualKeys: set<string>, pairs: map<string, string>,
                     decode: string -> Option<ProtoValue>, resultStruct: ResultStruct)
    returns (updated: ResultStruct)
    ensures updated.Keys == resultStruct.Keys + actualKeys
    ensures forall k :: k in actualKeys ==> updated[k] == V1Entry(pairs, k, decode)
    ensures forall k :: k in resultStruct && k !in actualKeys ==> updated[k] == resultStruct[k]
  {
    updated := resultStruct;
    var remaining := actualKeys;
    ghost var done: set<string> := {};
    while remaining != {}
      invariant done !! remaining && done + remaining == actualKeys
      invariant updated.Keys == resultStruct.Keys + done
      invariant forall k :: k in done ==> updated[k] == V1Entry(pairs, k, decode)
      invariant forall k :: k in resultStruct && k !in done ==> updated[k] == resultStruct[k]
      decreases remaining
    {
      var key :| key in remaining;
      var result;
      if key !in pairs {
        result := V1Status(Status(NotFoundCode, "Key not found"));
      } else {
        var decoded := decode(pairs[key]);
        if decoded.Some? {
          result := V1Value(decoded.value);
        } else {
          // Not JSON: the raw cached string becomes a string value.
          result := V1Value(StringValue(pairs[key]));
        }
      }
      updated := updated[key := result];
      remaining := remaining - {key};
      done := done + {key};
    }
  }

  /** A map holding the entry of every individual key of a non-empty group,
      looked up in the pairs the cache returned for them, and the old entry
      of every other key, is the merged result map. */
  lemma MergedEntries(existing: ResultStruct, snap: Snapshot, delim: char,
                      decode: string -> Option<ProtoValue>, group: seq<string>,
                      pairs: map<string, string>, updated: ResultStruct)
    requires group != [] && pairs == snap.KeyValuePairs(KeySet(group, delim))
    requires updated.Keys == existing.Keys + KeySet(group, delim)
    requires forall k :: k in KeySet(group, delim) ==> updated[k] == V1Entry(pairs, k, decode)
    requires forall k :: k in existing && k !in KeySet(group, delim) ==> updated[k] == existing[k]
    ensures updated == MergeGroup(existing, snap, delim, decode, group)
  {
    forall k | k in KeySet(group, delim)
      ensures updated[k] == V1Entry(snap.keyValues, k, decode)
    {
      assert V1Entry(pairs, k, decode) == V1Entry(snap.keyValues, k, decode);
    }
  }

  /** The GetValues request handler. */
  class GetValuesHandler {
    const cache: Cache
    const metrics: MetricsRecorder
    const adapter: GetValuesRequest -> V2Reply
    const useV2: bool
    const delimiter: char
    const decode: string -> Option<ProtoValue>

    constructor (cache: Cache, metrics: MetricsRecorder, adapter: GetValuesRequest -> V2Reply,
                 useV2: bool, delimiter: char, decode: string -> Option<ProtoValue>)
      ensures this.cache == cache && this.metrics == metrics && this.adapter == adapter
      ensures this.useV2 == useV2 && this.delimiter == delimiter && this.decode == decode
    {
      this.cache := cache;
      this.metrics := metrics;
      this.adapter := adapter;
      this.useV2 := useV2;
      this.delimiter := delimiter;
      this.decode := decode;
    }

    /** One group of a V1 request: looked up only when the request names
        at least one key in it, otherwise its response field is left alone. */
    method ProcessGroup(group: seq<string>, existing: ResultStruct) returns (updated: ResultStruct)
      modifies cache, metrics
      ensures updated == MergeGroup(existing, cache.snapshot, delimiter, decode, group)
      ensures metrics.counters == Tally(old(metrics.counters), GroupCounter(cache.snapshot, delimiter, group))
      ensures metrics.latencies == old(metrics.latencies)
      ensures cache.lookups == old(cache.lookups) + GroupLookup(delimiter, group)
    {
      if |group| != 0 {
        updated := ProcessKeys(group, cache, metrics, delimiter, decode, existing);
      } else {
        updated := existing;
        assert cache.lookups == old(cache.lookups) + GroupLookup(delimiter, group);
      }
    }

    /** Answers a request: with use_v2 set, through the V2 adapter alone;
        otherwise each non-empty group into its own response field. */
    method GetValues(request: GetValuesRequest, response: GetValuesResponse) returns (status: Status)
      modifies response, cache, metrics
      ensures metrics.latencies == old(metrics.latencies)
      ensures useV2 ==>
        && status == adapter(request).status
        && response.kvInternal == adapter(request).kvInternal
        && response.keys == adapter(request).keys
        && response.renderUrls == adapter(request).renderUrls
        && response.adComponentRenderUrls == adapter(request).adComponentRenderUrls
        && metrics.counters == old(metrics.counters)
        && cache.lookups == old(cache.lookups)
      ensures !useV2 ==>
        && status == Ok
        && response.kvInternal == MergeGroup(old(response.kvInternal), cache.snapshot, delimiter, decode, request.kvInternal)
        && response.keys == MergeGroup(old(response.keys), cache.snapshot, delimiter, decode, request.keys)
        && response.renderUrls == MergeGroup(old(response.renderUrls), cache.snapshot, delimiter, decode, request.renderUrls)
        && response.adComponentRenderUrls
           == MergeGroup(old(response.adComponentRenderUrls), cache.snapshot, delimiter, decode, request.adComponentRenderUrls)
        && metrics.counters == TallyGroups(old(metrics.counters), cache.snapshot, delimiter, Groups(request))
        && cache.lookups == old(cache.lookups) + GroupLookup(delimiter, request.kvInternal) + GroupLookup(delimiter, request.keys)
                            + GroupLookup(delimiter, request.renderUrls) + GroupLookup(delimiter, request.adComponentRenderUrls)
    {
      if useV2 {
        var reply := adapter(request);
        response.kvInternal := reply.kvInternal;
        response.keys := reply.keys;
        response.renderUrls := reply.renderUrls;
        response.adComponentRenderUrls := reply.adComponentRenderUrls;
        return reply.status;
      }
      ghost var snap := cache.snapshot;
      ghost var c0 := metrics.counters;
      response.kvInternal := ProcessGroup(request.kvInternal, response.kvInternal);
      response.keys := ProcessGroup(request.keys, response.keys);
      response.renderUrls := ProcessGroup(request.renderUrls, response.renderUrls);
      response.adComponentRenderUrls := ProcessGroup(request.adComponentRenderUrls, response.adComponentRenderUrls);
      GroupsUnfold(c0, snap, delimiter, request);
      status := Ok;
    }
  }

  /** TallyGroups over the four groups of a request, one group at a time. */
  lemma GroupsUnfold(counters: map<string, nat>, snap: Snapshot, delim: char, request: GetValuesRequest)
    ensures TallyGroups(counters, snap, delim, Groups(request))
      == Tally(Tally(Tally(Tally(counters,
           GroupCounter(snap, delim, request.kvInternal)),
           GroupCounter(snap, delim, request.keys)),
           GroupCounter(snap, delim, request.renderUrls)),
           GroupCounter(snap, delim, request.adComponentRenderUrls))
  {
    var gs := Groups(request);
    var c1 := Tally(counters, GroupCounter(snap, delim, request.kvInternal));
    var c2 := Tally(c1, GroupCounter(snap, delim, request.keys));
    var c3 := Tally(c2, GroupCounter(snap, delim, request.renderUrls));
    var c4 := Tally(c3, GroupCounter(snap, delim, request.adComponentRenderUrls));
    assert gs[1..] == [request.keys, request.renderUrls, request.adComponentRenderUrls];
    assert gs[1..][1..] == [request.renderUrls, request.adComponentRenderUrls];
    assert gs[1..][1..][1..] == [request.adComponentRenderUrls];
    assert gs[1..][1..][1..][1..] == [];
    assert TallyGroups(c4, snap, delim, []) == c4;
    assert TallyGroups(c3, snap, delim, gs[1..][1..][1..]) == c4;
    assert TallyGroups(c2, snap, delim, gs[1..][1..]) == c4;
    assert TallyGroups(c1, snap, delim, gs[1..]) == c4;
  }
}
