/**
 The background's persistent chunk cache: rows, alias rows and the in-memory key index, with store,
 lookup, bridge, purge and eviction as atomic steps.  `V` stands for buildCacheKeyVariants, which is
 kept abstract: a duplicate-free list of hash-free keys whose first element is the primary key.
 */
module ChunkCacheSpec {
  import opened OrderedMap
  import opened UrlText

  type Key = string
  type Variants = Key -> seq<Key>

  /** The row's `url` is its key; an absent scope is the empty string. */
  datatype Row = Row(hasBytes: bool, byteLength: nat, contentType: string, scope: string, createdAt: int)

  type Index = OMap<Key, Key>

  datatype State = State(chunks: map<Key, Row>, aliases: map<Key, Key>, index: Index)

  const MEMORY_KEY_INDEX_MAX := 6_000
  const CACHE_MAX_EVICTION_BATCH := 120

  ghost predicate ValidVariants(V: Variants) {
    forall u :: forall i :: 0 <= i < |V(u)| ==>
      && V(u)[i] != "" && '#' !in V(u)[i]
      && forall j :: 0 <= j < i ==> V(u)[j] != V(u)[i]
  }

  // ---- The memory index

  function DropPrimaries(index: Index, drop: set<Key>): Index {
    if index == [] then []
    else if index[0].value in drop then DropPrimaries(index[1..], drop)
    else [index[0]] + DropPrimaries(index[1..], drop)
  }

  function SetAll(index: Index, keys: seq<Key>, primary: Key): Index
    decreases |keys|
  {
    if keys == [] then index else SetAll(Set(index, keys[0], primary), keys[1..], primary)
  }

  function TrimIndex(index: Index): Index {
    if |index| > MEMORY_KEY_INDEX_MAX then index[|index| - MEMORY_KEY_INDEX_MAX..] else index
  }

  /** indexCacheKeys */
  function IndexKeys(index: Index, primary: Key, keys: seq<Key>): Index {
    if primary == "" then index else TrimIndex(SetAll(index, [primary] + keys, primary))
  }

  // ---- Scopes

  /** The page part of a `page|playlist` scope. */
  function PageOf(scope: string): string {
    if scope == [] || scope[0] == '|' then [] else [scope[0]] + PageOf(scope[1..])
  }

  predicate ScopeCompatible(item: string, expected: string) {
    || expected == "" || item == "" || item == expected
    || (PageOf(item) != "" && PageOf(expected) != "" && PageOf(item) == PageOf(expected))
  }

  // ---- Lookup

  datatype Via = Direct | Memory | Alias

  /** `row` is the key of the row served, `key` the probe that led there. */
  datatype Hit = Hit(row: Key, key: Key, via: Via)

  predicate Serves(s: State, row: Key, expected: string) {
    row in s.chunks && s.chunks[row].hasBytes && ScopeCompatible(s.chunks[row].scope, expected)
  }

  function MemoryPass(s: State, keys: seq<Key>, expected: string): (State, Option<Hit>)
    decreases |keys|
  {
    if keys == [] then (s, None)
    else
      match Get(s.index, keys[0])
      case None => MemoryPass(s, keys[1..], expected)
      case Some(primary) =>
        if primary in s.chunks && s.chunks[primary].hasBytes then
          if Serves(s, primary, expected) then
            (s, Some(Hit(primary, keys[0], if primary == keys[0] then Direct else Memory)))
          else MemoryPass(s, keys[1..], expected)
        else MemoryPass(s.(index := DropPrimaries(s.index, {primary})), keys[1..], expected)
  }

  function StorePass(s: State, keys: seq<Key>, expected: string): (State, Option<Hit>)
    decreases |keys|
  {
    if keys == [] then (s, None)
    else
      var k := keys[0];
      if Serves(s, k, expected) then
        (s.(index := IndexKeys(s.index, k, [])), Some(Hit(k, k, Direct)))
      else if k !in s.aliases then StorePass(s, keys[1..], expected)
      else if Serves(s, s.aliases[k], expected) then
        (s.(index := IndexKeys(s.index, s.aliases[k], [k])), Some(Hit(s.aliases[k], k, Alias)))
      else StorePass(s.(aliases := s.aliases - {k}), keys[1..], expected)
  }

  /** resolveCachedChunk */
  function Lookup(V: Variants, s: State, url: string, expected: string): (State, Option<Hit>) {
    var m := MemoryPass(s, V(url), expected);
    if m.1.Some? then m else StorePass(m.0, V(url), expected)
  }

  // ---- Store

  function AliasAll(aliases: map<Key, Key>, keys: seq<Key>, target: Key): map<Key, Key>
    decreases |keys|
  {
    if keys == [] then aliases
    else AliasAll(if keys[0] == target then aliases else aliases[keys[0] := target], keys[1..], target)
  }

  predicate DuplicateWrite(s: State, primary: Key, row: Row, window: int) {
    && primary in s.chunks && s.chunks[primary].byteLength > 0
    && s.chunks[primary].byteLength == row.byteLength && s.chunks[primary].contentType == row.contentType
    && row.createdAt - s.chunks[primary].createdAt < window
  }

  /** cacheChunk; `deduped` is the verdict of the external fingerprint dedup. */
  function Store(V: Variants, s: State, url: string, row: Row, deduped: bool, window: int): State {
    var keys := V(StripHash(url));
    if StripHash(url) == "" || keys == [] || deduped then s
    else if DuplicateWrite(s, keys[0], row, window) then s.(index := IndexKeys(s.index, keys[0], keys[1..]))
    else State(s.chunks[keys[0] := row], AliasAll(s.aliases, keys[1..], keys[0]),
               IndexKeys(s.index, keys[0], keys[1..]))
  }

  // ---- Bridge

  function BridgeAll(s: State, keys: seq<Key>, target: Key): State
    decreases |keys|
  {
    if keys == [] then s
    else if keys[0] == "" || keys[0] == target then BridgeAll(s, keys[1..], target)
    else BridgeAll(s.(aliases := s.aliases[keys[0] := target], index := IndexKeys(s.index, target, [keys[0]])),
                   keys[1..], target)
  }

  /** bridgeCacheAliasesForUrlPair: the new URL's keys become aliases of the probe that found the old one. */
  function Bridge(V: Variants, s: State, oldUrl: string, newUrl: string): State {
    var o := StripHash(oldUrl);
    var n := StripHash(newUrl);
    if o == "" || n == "" || o == n then s
    else
      var (s', hit) := Lookup(V, s, o, "");
      match hit
      case None => s'
      case Some(h) => BridgeAll(s', V(n), h.key)
  }

  // ---- Purge

  function PurgeKey(s: State, key: Key): State {
    var mapped := Get(s.index, key);
    State(s.chunks, s.aliases - {key},
          if mapped.Some? && mapped.value != key then Delete(s.index, key) else s.index)
  }

  function PurgeKeys(s: State, keys: seq<Key>): State
    decreases |keys|
  {
    if keys == [] then s else PurgeKeys(PurgeKey(s, keys[0]), keys[1..])
  }

  /** purgeSegmentAliasMappings */
  function Purge(V: Variants, s: State, urls: seq<string>): State
    decreases |urls|
  {
    if urls == [] then s else Purge(V, PurgeKeys(s, V(urls[0])), urls[1..])
  }

  // ---- Eviction

  datatype Item = Item(url: Key, byteLength: nat)

  function Bytes(items: seq<Item>): nat {
    if items == [] then 0 else items[0].byteLength + Bytes(items[1..])
  }

  function Urls(items: seq<Item>): seq<Key> {
    seq(|items|, i requires 0 <= i < |items| => items[i].url)
  }

  function Unprotected(order: seq<Item>, guarded: Key -> bool): seq<Item> {
    if order == [] then []
    else if guarded(order[0].url) then Unprotected(order[1..], guarded)
    else [order[0]] + Unprotected(order[1..], guarded)
  }

  /** The overflow counters `n` rows into the pass are both used up. */
  predicate TargetsMet(victims: seq<Item>, overEntries: int, overBytes: int, n: nat)
    requires n <= |victims|
  {
    overEntries - n <= 0 && overBytes - Bytes(victims[..n]) <= 0
  }

  /** Takes unprotected rows until the targets are met or the batch is full. */
  function Take(order: seq<Item>, guarded: Key -> bool, overEntries: int, overBytes: int, batch: nat): seq<Item> {
    if order == [] || (overEntries <= 0 && overBytes <= 0) || batch == 0 then []
    else if guarded(order[0].url) then Take(order[1..], guarded, overEntries, overBytes, batch)
    else [order[0]] +
         Take(order[1..], guarded, overEntries - 1, overBytes - order[0].byteLength, batch - 1)
  }

  /** Deletes the rows, the index entries that lead to them and the alias rows that target them. */
  ghost function Remove(s: State, keys: set<Key>): State {
    State(s.chunks - keys, map a | a in s.aliases && s.aliases[a] !in keys :: s.aliases[a],
          DropPrimaries(s.index, keys))
  }

  /** What deleting a list of rows, possibly empty, leaves. */
  ghost function Deleted(s: State, items: seq<Item>): State {
    if items == [] then s else Remove(s, set k | k in Urls(items))
  }

  const CACHE_TTL_SWEEP_MIN_AGE_MS := 60 * 60 * 1000
  const CACHE_TTL_SWEEP_MAX_DELETE := 250

  /** ageSweepCacheEntries: in creation order the rows born at the cutoff or before, up to the batch bound. */
  function Aged(items: seq<Item>, bornAt: Key -> int, cutoff: int, batch: nat): seq<Item> {
    if items == [] || batch == 0 then []
    else if bornAt(items[0].url) <= cutoff then [items[0]] + Aged(items[1..], bornAt, cutoff, batch - 1)
    else Aged(items[1..], bornAt, cutoff, batch)
  }

  /** The order in which the createdAt index lists the rows. */
  ghost predicate InCreationOrder(items: seq<Item>, bornAt: Key -> int) {
    forall i, j :: 0 <= i < j < |items| ==> bornAt(items[i].url) <= bornAt(items[j].url)
  }

  ghost predicate OneRowPerUrl(items: seq<Item>) {
    forall i, j :: 0 <= i < j < |items| ==> items[i].url != items[j].url
  }

  function InsertByScore(x: Item, sorted: seq<Item>, score: Key -> int): seq<Item> {
    if sorted == [] || score(x.url) >= score(sorted[0].url) then [x] + sorted
    else [sorted[0]] + InsertByScore(x, sorted[1..], score)
  }

  /** Array.prototype.sort by descending score, which is stable; candidates carry no createdAt. */
  function SortByScore(items: seq<Item>, score: Key -> int): seq<Item> {
    if items == [] then [] else InsertByScore(items[0], SortByScore(items[1..], score), score)
  }

  predicate ListsUrl(items: seq<Item>, k: Key) {
    exists i :: 0 <= i < |items| && items[i].url == k
  }

  /** The store summary: every row once, with its size. */
  ghost predicate Summarises(items: seq<Item>, chunks: map<Key, Row>) {
    && OneRowPerUrl(items)
    && (forall i :: 0 <= i < |items| ==>
          items[i].url in chunks && chunks[items[i].url].byteLength == items[i].byteLength)
    && forall k :: k in chunks ==> ListsUrl(items, k)
  }

  function Without(items: seq<Item>, gone: set<Key>): seq<Item> {
    if items == [] then []
    else if items[0].url in gone then Without(items[1..], gone)
    else [items[0]] + Without(items[1..], gone)
  }

  ghost function UrlSet(items: seq<Item>): set<Key> {
    set k | k in Urls(items)
  }

  // ---- Invariants

  /** No alias row and no index entry leads to a missing row. */
  ghost predicate NoDangling(s: State) {
    && (forall a :: a in s.aliases ==> s.aliases[a] in s.chunks)
    && (forall p :: p in s.index ==> p.value in s.chunks)
  }

  /** None of the URL's keys leads to another key. */
  ghost predicate Purged(V: Variants, s: State, url: string) {
    forall k :: k in V(url) ==>
      k !in s.aliases && forall p :: p in s.index && p.key == k ==> p.value == k
  }

  datatype Event =
    | StoreEvent(url: string, row: Row, deduped: bool, window: int)
    | LookupEvent(url: string, expected: string)
    | BridgeEvent(oldUrl: string, newUrl: string)
    | PurgeEvent(urls: seq<string>)
    | EvictEvent(keys: set<Key>)

  ghost function Step(V: Variants, s: State, e: Event): State {
    match e
    case StoreEvent(url, row, deduped, window) => Store(V, s, url, row, deduped, window)
    case LookupEvent(url, expected) => Lookup(V, s, url, expected).0
    case BridgeEvent(o, n) => Bridge(V, s, o, n)
    case PurgeEvent(urls) => Purge(V, s, urls)
    case EvictEvent(keys) => Remove(s, keys)
  }

  ghost function Run(V: Variants, s: State, es: seq<Event>): State
    decreases |es|
  {
    if es == [] then s else Run(V, Step(V, s, es[0]), es[1..])
  }

  ghost predicate Apart(a: seq<Key>, b: seq<Key>) {
    forall k :: k in a ==> k !in b
  }

  /** The event neither evicts the URL's row nor stores or maps any of its keys. */
  ghost predicate Spares(V: Variants, e: Event, url: string) {
    match e
    case StoreEvent(u, _, _, _) => Apart(V(StripHash(u)), V(url))
    case BridgeEvent(_, n) => Apart(V(StripHash(n)), V(url))
    case EvictEvent(keys) => V(url) != [] ==> V(url)[0] !in keys
    case _ => true
  }

  /** The event writes alias mappings for one of the URL's keys. */
  ghost predicate Rewrites(V: Variants, e: Event, url: string) {
    match e
    case StoreEvent(u, _, _, _) =>
      exists k :: k in V(url) && k in V(StripHash(u)) && k != V(StripHash(u))[0]
    case BridgeEvent(_, n) => exists k :: k in V(url) && k in V(StripHash(n))
    case _ => false
  }
}
