/** The background's chunk cache as it runs, proved against its atomic steps. */
module ChunkCache {
  import opened OrderedMap
  import opened UrlText
  import opened ChunkCacheSpec
  import opened ChunkCacheProofs
  import opened GuardRing

  datatype Lane = Hard | Soft | Reconcile

  datatype Policy = Policy(maxBytes: nat, maxEntries: nat)

  function TargetPercent(lane: Lane): nat {
    match lane
    case Reconcile => 60
    case Soft => 75
    case Hard => 85
  }

  function OverEntries(items: seq<Item>, p: Policy, lane: Lane): int {
    |items| - p.maxEntries * TargetPercent(lane) / 100
  }

  function OverBytes(items: seq<Item>, p: Policy, lane: Lane): int {
    Bytes(items) - p.maxBytes * TargetPercent(lane) / 100
  }

  predicate OverBudget(items: seq<Item>, p: Policy) {
    Bytes(items) > p.maxBytes || |items| > p.maxEntries
  }

  const CACHE_RECONCILE_INTERVAL_MS := 20_000

  type LaneRuns = map<Lane, int>

  /** Whether a pass may start: forced and hard ones at any time, the others only unsuppressed and spaced. */
  predicate MayRun(runs: LaneRuns, lane: Lane, force: bool, suppressed: bool, now: int) {
    || force || lane == Hard
    || (!suppressed && (lane in runs ==> now - runs[lane] >= CACHE_RECONCILE_INTERVAL_MS))
  }

  /** The rows an eviction pass deletes, in deletion order. */
  ghost function Victims(V: Variants, items: seq<Item>, tierA: set<Key>, score: Key -> int,
                         p: Policy, lane: Lane, force: bool, overSoft: bool): seq<Item> {
    if !force && !overSoft && !OverBudget(items, p) then []
    else Take(SortByScore(items, score), Guard(V, tierA), OverEntries(items, p, lane), OverBytes(items, p, lane),
              CACHE_MAX_EVICTION_BATCH)
  }

  /**
   What a whole pass leaves of a store that `items` summarises: whatever was swept before, the remaining rows
   meet both targets of the lane, unless the batch is full or every remaining row is protected.
   */
  lemma PassMeetsTargets(V: Variants, s: State, items: seq<Item>, swept: seq<Item>, tierA: set<Key>,
                         score: Key -> int, p: Policy, lane: Lane, force: bool, overSoft: bool)
    requires Summarises(items, s.chunks)
    ensures var victims := Victims(V, items, tierA, score, p, lane, force, overSoft);
      var r := Deleted(Deleted(s, swept), victims);
      var left := Without(items, UrlSet(victims) + UrlSet(swept));
      && Summarises(left, r.chunks)
      && (force || overSoft || OverBudget(items, p) ==>
            || |victims| == CACHE_MAX_EVICTION_BATCH
            || (forall x :: x in left ==> Guard(V, tierA)(x.url))
            || (|left| <= p.maxEntries * TargetPercent(lane) / 100
                && Bytes(left) <= p.maxBytes * TargetPercent(lane) / 100))
  {
    var victims := Victims(V, items, tierA, score, p, lane, force, overSoft);
    var gone := UrlSet(victims) + UrlSet(swept);
    DeletedRows(s, swept);
    DeletedRows(Deleted(s, swept), victims);
    assert s.chunks - UrlSet(swept) - UrlSet(victims) == s.chunks - gone;
    WithoutSummarises(items, s.chunks, gone);
    if force || overSoft || OverBudget(items, p) {
      TakenLeaves(items, Guard(V, tierA), score, OverEntries(items, p, lane), OverBytes(items, p, lane));
      WithoutTwice(items, UrlSet(victims), UrlSet(swept));
      WithoutMembers(Without(items, UrlSet(victims)), UrlSet(swept));
    }
  }

  lemma {:induction false} SetAllSnoc(index: Index, keys: seq<Key>, key: Key, primary: Key)
    ensures SetAll(index, keys + [key], primary) == Set(SetAll(index, keys, primary), key, primary)
    decreases |keys|
  {
    if keys == [] {
      assert keys + [key] == [key] && ([key])[1..] == [];
    } else {
      assert (keys + [key])[1..] == keys[1..] + [key];
      SetAllSnoc(Set(index, keys[0], primary), keys[1..], key, primary);
    }
  }

  lemma {:induction false} DropPrimariesConcat(a: Index, b: Index, drop: set<Key>)
    ensures DropPrimaries(a + b, drop) == DropPrimaries(a, drop) + DropPrimaries(b, drop)
  {
    if a == [] {
      assert a + b == b;
    } else {
      assert (a + b)[1..] == a[1..] + b;
      DropPrimariesConcat(a[1..], b, drop);
    }
  }

  /** The first `i` pairs of the index are filtered, the rest are as they were. */
  ghost predicate DroppedUpTo(it: Index, i: nat, drop: set<Key>, cur: Index) {
    i <= |it| && cur == DropPrimaries(it[..i], drop) + it[i..] && Distinct(cur)
  }

  lemma DropEnds(it: Index, drop: set<Key>)
    requires Distinct(it)
    ensures DroppedUpTo(it, 0, drop, it)
    ensures forall cur :: DroppedUpTo(it, |it|, drop, cur) ==> cur == DropPrimaries(it, drop) && Distinct(cur)
  {
    assert it[..|it|] == it;
  }

  /** One turn of the loop that deletes index entries leading to `drop`. */
  lemma DropTurn(it: Index, i: nat, drop: set<Key>, cur: Index)
    requires i < |it| && DroppedUpTo(it, i, drop, cur)
    ensures DroppedUpTo(it, i + 1, drop, if it[i].value in drop then Delete(cur, it[i].key) else cur)
  {
    DropPrimariesConcat(it[..i], [it[i]], drop);
    TakeNext(it, i);
    assert ([it[i]])[1..] == [];
    FilterTurn(DropPrimaries(it[..i], drop), it, i, it[i].value in drop, DropPrimaries(it[..i + 1], drop));
  }

  lemma TakeHead(order: seq<Item>, i: nat, guarded: Key -> bool, overEntries: int, overBytes: int, batch: nat)
    requires i < |order|
    ensures Take(order[i..], guarded, overEntries, overBytes, batch) ==
      if (overEntries <= 0 && overBytes <= 0) || batch == 0 then []
      else if guarded(order[i].url) then Take(order[i + 1..], guarded, overEntries, overBytes, batch)
      else [order[i]] +
           Take(order[i + 1..], guarded, overEntries - 1, overBytes - order[i].byteLength, batch - 1)
  {
    assert order[i..][1..] == order[i + 1..];
  }

  /** What the loop has still to take completes its victims to the whole pass. */
  ghost predicate TakenUpTo(order: seq<Item>, i: nat, guarded: Key -> bool, all: seq<Item>, victims: seq<Item>,
                            leftEntries: int, leftBytes: int) {
    && i <= |order| && |victims| <= CACHE_MAX_EVICTION_BATCH
    && all == victims + Take(order[i..], guarded, leftEntries, leftBytes, CACHE_MAX_EVICTION_BATCH - |victims|)
  }

  lemma TakeStarts(order: seq<Item>, guarded: Key -> bool, overEntries: int, overBytes: int)
    ensures TakenUpTo(order, 0, guarded, Take(order, guarded, overEntries, overBytes, CACHE_MAX_EVICTION_BATCH), [],
                      overEntries, overBytes)
  {
    assert order[0..] == order;
  }

  lemma TakeStops(order: seq<Item>, i: nat, guarded: Key -> bool, all: seq<Item>, victims: seq<Item>,
                  leftEntries: int, leftBytes: int)
    requires TakenUpTo(order, i, guarded, all, victims, leftEntries, leftBytes)
    requires i == |order| || (leftEntries <= 0 && leftBytes <= 0) || |victims| == CACHE_MAX_EVICTION_BATCH
    ensures all == victims
  {
  }

  lemma TakeTurn(order: seq<Item>, i: nat, guarded: Key -> bool, all: seq<Item>, victims: seq<Item>,
                 leftEntries: int, leftBytes: int)
    requires i < |order| && TakenUpTo(order, i, guarded, all, victims, leftEntries, leftBytes)
    requires (leftEntries > 0 || leftBytes > 0) && |victims| < CACHE_MAX_EVICTION_BATCH
    ensures if guarded(order[i].url) then TakenUpTo(order, i + 1, guarded, all, victims, leftEntries, leftBytes)
            else TakenUpTo(order, i + 1, guarded, all, victims + [order[i]],
                           leftEntries - 1, leftBytes - order[i].byteLength)
  {
    TakeHead(order, i, guarded, leftEntries, leftBytes, CACHE_MAX_EVICTION_BATCH - |victims|);
  }

  lemma {:induction false} BytesSnoc(items: seq<Item>, x: Item)
    ensures Bytes(items + [x]) == Bytes(items) + x.byteLength
  {
    if items == [] {
      assert items + [x] == [x] && ([x])[1..] == [];
    } else {
      assert (items + [x])[1..] == items[1..] + [x];
      BytesSnoc(items[1..], x);
    }
  }

  class PersistentCache {
    const variants: Variants
    var chunks: map<Key, Row>
    var aliases: map<Key, Key>
    var memoryKeyIndex: Index
    var lastEvictionRun: LaneRuns

    ghost function Snapshot(): State
      reads this
    {
      State(chunks, aliases, memoryKeyIndex)
    }

    constructor (variants: Variants)
      ensures this.variants == variants && Snapshot() == State(map[], map[], []) && IndexOk(Snapshot())
      ensures lastEvictionRun == map[Hard := 0, Soft := 0, Reconcile := 0]
    {
      this.variants := variants;
      chunks, aliases, memoryKeyIndex := map[], map[], [];
      lastEvictionRun := map[Hard := 0, Soft := 0, Reconcile := 0];
    }

    method IndexCacheKeys(primary: Key, aliasKeys: seq<Key>)
      modifies `memoryKeyIndex
      ensures memoryKeyIndex == IndexKeys(old(memoryKeyIndex), primary, aliasKeys)
    {
      if primary == "" { return; }
      ghost var all := [primary] + aliasKeys;
      memoryKeyIndex := Set(memoryKeyIndex, primary, primary);
      SetAllSnoc(old(memoryKeyIndex), [], primary, primary);
      assert [] + [primary] == [primary] && all[..1] == [primary];
      for i := 0 to |aliasKeys|
        invariant memoryKeyIndex == SetAll(old(memoryKeyIndex), all[..i + 1], primary)
      {
        assert all[..i + 2] == all[..i + 1] + [aliasKeys[i]];
        SetAllSnoc(old(memoryKeyIndex), all[..i + 1], aliasKeys[i], primary);
        memoryKeyIndex := Set(memoryKeyIndex, aliasKeys[i], primary);
      }
      assert all[..|aliasKeys| + 1] == all;
      if |memoryKeyIndex| > MEMORY_KEY_INDEX_MAX {
        var excess := |memoryKeyIndex| - MEMORY_KEY_INDEX_MAX;
        memoryKeyIndex := memoryKeyIndex[excess..];
      }
    }

    method DropIndexedPrimaryKeys(drop: set<Key>)
      requires Distinct(memoryKeyIndex)
      modifies `memoryKeyIndex
      ensures memoryKeyIndex == DropPrimaries(old(memoryKeyIndex), drop) && Distinct(memoryKeyIndex)
    {
      var it := memoryKeyIndex;
      DropEnds(it, drop);
      for i := 0 to |it|
        invariant DroppedUpTo(it, i, drop, memoryKeyIndex)
      {
        DropTurn(it, i, drop, memoryKeyIndex);
        if it[i].value in drop {
          memoryKeyIndex := Delete(memoryKeyIndex, it[i].key);
        }
      }
    }

    method CacheChunk(url: string, row: Row, deduped: bool, window: int) returns (stored: bool)
      requires IndexOk(Snapshot())
      modifies `chunks, `aliases, `memoryKeyIndex
      ensures Snapshot() == Store(variants, old(Snapshot()), url, row, deduped, window) && IndexOk(Snapshot())
      ensures stored ==>
        && variants(StripHash(url)) != []
        && variants(StripHash(url))[0] in chunks && chunks[variants(StripHash(url))[0]] == row
    {
      var keys := variants(StripHash(url));
      if StripHash(url) == "" || keys == [] || deduped { return false; }
      var primary := keys[0];
      IndexKeysOk(memoryKeyIndex, primary, keys[1..]);
      if DuplicateWrite(State(chunks, aliases, memoryKeyIndex), primary, row, window) {
        IndexCacheKeys(primary, keys[1..]);
        return false;
      }
      chunks := chunks[primary := row];
      WriteAliases(keys[1..], primary);
      IndexCacheKeys(primary, keys[1..]);
      return true;
    }

    method WriteAliases(keys: seq<Key>, target: Key)
      modifies `aliases
      ensures aliases == AliasAll(old(aliases), keys, target)
    {
      for i := 0 to |keys|
        invariant AliasAll(aliases, keys[i..], target) == AliasAll(old(aliases), keys, target)
      {
        assert keys[i..][1..] == keys[i + 1..];
        if keys[i] != target {
          aliases := aliases[keys[i] := target];
        }
      }
    }

    method ProbeMemory(keys: seq<Key>, expected: string) returns (hit: Option<Hit>)
      requires IndexOk(Snapshot())
      modifies `memoryKeyIndex
      ensures (Snapshot(), hit) == MemoryPass(old(Snapshot()), keys, expected) && IndexOk(Snapshot())
    {
      var i := 0;
      while i < |keys|
        invariant 0 <= i <= |keys| && IndexOk(Snapshot())
        invariant MemoryPass(Snapshot(), keys[i..], expected) == MemoryPass(old(Snapshot()), keys, expected)
      {
        assert keys[i..][1..] == keys[i + 1..];
        match Get(memoryKeyIndex, keys[i]) {
          case None =>
          case Some(primary) =>
            if primary in chunks && chunks[primary].hasBytes {
              if ScopeCompatible(chunks[primary].scope, expected) {
                return Some(Hit(primary, keys[i], if primary == keys[i] then Direct else Memory));
              }
            } else {
              DropPrimariesMembers(memoryKeyIndex, {primary});
              DropIndexedPrimaryKeys({primary});
            }
        }
        i := i + 1;
      }
      return None;
    }

    method ProbeStore(keys: seq<Key>, expected: string) returns (hit: Option<Hit>)
      requires IndexOk(Snapshot())
      modifies `memoryKeyIndex, `aliases
      ensures (Snapshot(), hit) == StorePass(old(Snapshot()), keys, expected) && IndexOk(Snapshot())
    {
      var i := 0;
      while i < |keys|
        invariant 0 <= i <= |keys| && memoryKeyIndex == old(memoryKeyIndex)
        invariant StorePass(Snapshot(), keys[i..], expected) == StorePass(old(Snapshot()), keys, expected)
      {
        assert keys[i..][1..] == keys[i + 1..];
        var k := keys[i];
        if k in chunks && chunks[k].hasBytes && ScopeCompatible(chunks[k].scope, expected) {
          IndexKeysOk(memoryKeyIndex, k, []);
          IndexCacheKeys(k, []);
          return Some(Hit(k, k, Direct));
        }
        if k in aliases {
          var target := aliases[k];
          if target in chunks && chunks[target].hasBytes && ScopeCompatible(chunks[target].scope, expected) {
            IndexKeysOk(memoryKeyIndex, target, [k]);
            IndexCacheKeys(target, [k]);
            return Some(Hit(target, k, Alias));
          }
          aliases := aliases - {k};
        }
        i := i + 1;
      }
      return None;
    }

    method ResolveCachedChunk(url: string, expected: string) returns (hit: Option<Hit>)
      requires IndexOk(Snapshot())
      modifies `memoryKeyIndex, `aliases
      ensures (Snapshot(), hit) == Lookup(variants, old(Snapshot()), url, expected) && IndexOk(Snapshot())
    {
      var keys := variants(url);
      hit := ProbeMemory(keys, expected);
      if hit == None {
        hit := ProbeStore(keys, expected);
      }
    }

    method BridgeCacheAliases(oldUrl: string, newUrl: string)
      requires IndexOk(Snapshot())
      modifies `memoryKeyIndex, `aliases
      ensures Snapshot() == Bridge(variants, old(Snapshot()), oldUrl, newUrl) && IndexOk(Snapshot())
    {
      var o := StripHash(oldUrl);
      var n := StripHash(newUrl);
      if o == "" || n == "" || o == n { return; }
      var hit := ResolveCachedChunk(o, "");
      if hit.Some? {
        BridgeKeys(variants(n), hit.value.key);
      }
    }

    method BridgeKeys(keys: seq<Key>, target: Key)
      requires IndexOk(Snapshot())
      modifies `memoryKeyIndex, `aliases
      ensures Snapshot() == BridgeAll(old(Snapshot()), keys, target) && IndexOk(Snapshot())
    {
      for i := 0 to |keys|
        invariant IndexOk(Snapshot())
        invariant BridgeAll(Snapshot(), keys[i..], target) == BridgeAll(old(Snapshot()), keys, target)
      {
        assert keys[i..][1..] == keys[i + 1..];
        var alias := keys[i];
        if alias != "" && alias != target {
          IndexKeysOk(memoryKeyIndex, target, [alias]);
          if alias in aliases && aliases[alias] == target {
            assert aliases[alias := target] == aliases;
          } else {
            aliases := aliases[alias := target];
          }
          IndexCacheKeys(target, [alias]);
        }
      }
    }

    method PurgeSegmentAliasMappings(urls: seq<string>)
      requires IndexOk(Snapshot())
      modifies `memoryKeyIndex, `aliases
      ensures Snapshot() == Purge(variants, old(Snapshot()), urls) && IndexOk(Snapshot())
      ensures forall url :: url in urls ==> Purged(variants, Snapshot(), url)
    {
      forall url | url in urls ensures Purged(variants, Purge(variants, Snapshot(), urls), url) {
        PurgeClears(variants, Snapshot(), urls, url);
      }
      PurgeIndexOk(variants, Snapshot(), urls);
      for i := 0 to |urls|
        invariant Purge(variants, Snapshot(), urls[i..]) == Purge(variants, old(Snapshot()), urls)
      {
        assert urls[i..][1..] == urls[i + 1..];
        PurgeUrlKeys(variants(urls[i]));
      }
    }

    method PurgeUrlKeys(keys: seq<Key>)
      modifies `memoryKeyIndex, `aliases
      ensures Snapshot() == PurgeKeys(old(Snapshot()), keys)
    {
      for i := 0 to |keys|
        invariant PurgeKeys(Snapshot(), keys[i..]) == PurgeKeys(old(Snapshot()), keys)
      {
        assert keys[i..][1..] == keys[i + 1..];
        PurgeOneKey(keys[i]);
      }
    }

    method PurgeOneKey(key: Key)
      modifies `memoryKeyIndex, `aliases
      ensures Snapshot() == PurgeKey(old(Snapshot()), key)
    {
      var mapped := Get(memoryKeyIndex, key);
      if mapped.Some? && mapped.value != key {
        memoryKeyIndex := Delete(memoryKeyIndex, key);
      }
      aliases := aliases - {key};
    }

    /** The candidate loop of an eviction pass. */
    method SelectVictims(order: seq<Item>, tierA: set<Key>, overEntries: int, overBytes: int)
      returns (victims: seq<Item>, reclaimed: nat)
      ensures victims == Take(order, Guard(variants, tierA), overEntries, overBytes, CACHE_MAX_EVICTION_BATCH)
      ensures reclaimed == Bytes(victims)
    {
      victims, reclaimed := [], 0;
      var leftEntries, leftBytes := overEntries, overBytes;
      ghost var guarded := Guard(variants, tierA);
      ghost var all := Take(order, guarded, overEntries, overBytes, CACHE_MAX_EVICTION_BATCH);
      TakeStarts(order, guarded, overEntries, overBytes);
      var i := 0;
      while i < |order|
        invariant TakenUpTo(order, i, guarded, all, victims, leftEntries, leftBytes)
        invariant reclaimed == Bytes(victims)
      {
        if leftEntries <= 0 && leftBytes <= 0 { break; }
        if |victims| >= CACHE_MAX_EVICTION_BATCH { break; }
        TakeTurn(order, i, guarded, all, victims, leftEntries, leftBytes);
        if !IsProtected(variants, order[i].url, tierA) {
          BytesSnoc(victims, order[i]);
          victims := victims + [order[i]];
          leftEntries := leftEntries - 1;
          leftBytes := leftBytes - order[i].byteLength;
          reclaimed := reclaimed + order[i].byteLength;
        }
        i := i + 1;
      }
      TakeStops(order, i, guarded, all, victims, leftEntries, leftBytes);
    }

    /** The deleting half of a pass. */
    method DeleteRows(victims: seq<Item>)
      requires IndexOk(Snapshot())
      modifies `chunks, `aliases, `memoryKeyIndex
      ensures Snapshot() == Remove(old(Snapshot()), set k | k in Urls(victims)) && IndexOk(Snapshot())
    {
      var keys := set k | k in Urls(victims);
      DropPrimariesMembers(memoryKeyIndex, keys);
      DropIndexedPrimaryKeys(keys);
      chunks := chunks - keys;
      aliases := map a | a in aliases && aliases[a] !in keys :: aliases[a];
    }

    /** The sweep's cursor over the creation order, then the clean-up of what it deleted. */
    method AgeSweep(items: seq<Item>, bornAt: Key -> int, now: int) returns (swept: seq<Item>)
      requires IndexOk(Snapshot())
      modifies `chunks, `aliases, `memoryKeyIndex
      ensures swept == Aged(items, bornAt, now - CACHE_TTL_SWEEP_MIN_AGE_MS, CACHE_TTL_SWEEP_MAX_DELETE)
      ensures Snapshot() == Deleted(old(Snapshot()), swept) && IndexOk(Snapshot())
    {
      var cutoff := now - CACHE_TTL_SWEEP_MIN_AGE_MS;
      swept := [];
      assert items[0..] == items;
      var i := 0;
      while i < |items| && |swept| < CACHE_TTL_SWEEP_MAX_DELETE
        invariant i <= |items| && |swept| <= CACHE_TTL_SWEEP_MAX_DELETE
        invariant Aged(items, bornAt, cutoff, CACHE_TTL_SWEEP_MAX_DELETE) ==
          swept + Aged(items[i..], bornAt, cutoff, CACHE_TTL_SWEEP_MAX_DELETE - |swept|)
      {
        assert items[i..][1..] == items[i + 1..];
        if bornAt(items[i].url) <= cutoff { swept := swept + [items[i]]; }
        i := i + 1;
      }
      if |swept| > 0 { DeleteRows(swept); }
    }

    /**
     One eviction pass.  `items` is the store summary in creation order, taken before the reconcile lane's age
     sweep; `bornAt` gives the creation times and `score` ranks the candidates.
     */
    method RunEvictionPass(items: seq<Item>, bornAt: Key -> int, tierA: set<Key>, score: Key -> int,
                           policy: Policy, lane: Lane, force: bool, overSoft: bool, suppressed: bool, now: int)
      returns (swept: seq<Item>, victims: seq<Item>, reclaimed: nat)
      requires IndexOk(Snapshot())
      modifies this
      ensures reclaimed == Bytes(victims) && IndexOk(Snapshot())
      ensures Snapshot() == Deleted(Deleted(old(Snapshot()), swept), victims)
      ensures !MayRun(old(lastEvictionRun), lane, force, suppressed, now) ==>
        swept == [] && victims == [] && lastEvictionRun == old(lastEvictionRun)
      ensures MayRun(old(lastEvictionRun), lane, force, suppressed, now) ==>
        && swept == (if lane != Reconcile then []
                     else Aged(items, bornAt, now - CACHE_TTL_SWEEP_MIN_AGE_MS, CACHE_TTL_SWEEP_MAX_DELETE))
        && victims == Victims(variants, items, tierA, score, policy, lane, force, overSoft)
        && lastEvictionRun == old(lastEvictionRun)[lane := now]
    {
      swept, victims, reclaimed := [], [], 0;
      if !force && lane != Hard && suppressed { return; }
      if !force && lane != Hard && lane in lastEvictionRun
        && now - lastEvictionRun[lane] < CACHE_RECONCILE_INTERVAL_MS { return; }
      lastEvictionRun := lastEvictionRun[lane := now];
      if lane == Reconcile { swept := AgeSweep(items, bornAt, now); }
      if !force && !overSoft && !OverBudget(items, policy) { return; }
      var overEntries := OverEntries(items, policy, lane);
      var overBytes := OverBytes(items, policy, lane);
      victims, reclaimed := SelectVictims(SortByScore(items, score), tierA, overEntries, overBytes);
      if |victims| > 0 { DeleteRows(victims); }
    }
  }
}
