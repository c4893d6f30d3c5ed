/**
 What the page's hot byte cache means: a least-recently-used list of entries, one-hop aliases into it,
 and waiters parked per key.  `Trim(Live(...))` is the plain LRU policy the eviction loops must equal.
 */
module HotCacheSpec {
  import opened OrderedMap

  type Key = string
  type Bytes = seq<bv8>

  const MAX_ENTRIES := 128
  const MAX_BYTES := 96 * 1024 * 1024
  const MAX_ENTRY_BYTES := 16 * 1024 * 1024
  const MAX_ALIASES := 256
  const MAX_WAITERS_PER_KEY := 32
  const MAX_WAITER_KEYS := 64
  const ENTRY_TTL_MS := 120_000
  const REFRESH_WINDOW_MS := 2_000

  datatype Entry = Entry(bytes: Bytes, contentType: string, status: int, storedAt: int)

  datatype Payload = Payload(bytes: Bytes, contentType: string, status: int)

  type Entries = OMap<Key, Entry>
  type Aliases = OMap<Key, Key>

  function Serve(e: Entry): Payload {
    Payload(e.bytes, e.contentType, e.status)
  }

  predicate Expired(e: Entry, now: int) {
    now - e.storedAt > ENTRY_TTL_MS
  }

  function Sum(entries: Entries): nat {
    if entries == [] then 0 else |entries[0].value.bytes| + Sum(entries[1..])
  }

  ghost function KeySet<V>(m: OMap<Key, V>): set<Key> {
    set p | p in m :: p.key
  }

  // ---- The LRU policy

  /** Entries still within their time to live, in order. */
  function Live(entries: Entries, now: int): Entries {
    if entries == [] then []
    else if Expired(entries[0].value, now) then Live(entries[1..], now)
    else [entries[0]] + Live(entries[1..], now)
  }

  predicate Fits(entries: Entries) {
    |entries| <= MAX_ENTRIES && Sum(entries) <= MAX_BYTES
  }

  /** Drops from the least recently used end until both bounds hold. */
  function Trim(entries: Entries): Entries {
    if entries == [] || Fits(entries) then entries else Trim(entries[1..])
  }

  function Append(entries: Entries, key: Key, e: Entry): Entries {
    Delete(entries, key) + [Pair(key, e)]
  }

  // ---- Aliases

  function WithoutKeys(aliases: Aliases, dropped: set<Key>): Aliases {
    if aliases == [] then []
    else if aliases[0].key in dropped || aliases[0].value in dropped then WithoutKeys(aliases[1..], dropped)
    else [aliases[0]] + WithoutKeys(aliases[1..], dropped)
  }

  function Reaching(aliases: Aliases, entries: Entries): Aliases {
    if aliases == [] then []
    else if Has(entries, aliases[0].value) then [aliases[0]] + Reaching(aliases[1..], entries)
    else Reaching(aliases[1..], entries)
  }

  function Newest(aliases: Aliases): Aliases {
    if |aliases| > MAX_ALIASES then aliases[|aliases| - MAX_ALIASES..] else aliases
  }

  function PruneAliases(aliases: Aliases, entries: Entries): Aliases {
    Newest(Reaching(aliases, entries))
  }

  function Register(aliases: Aliases, entries: Entries, alias: Option<Key>, primary: Key): Aliases {
    match alias
    case Some(a) => if a == primary then aliases else PruneAliases(Set(aliases, a, primary), entries)
    case None => aliases
  }

  /** Alias keys that lead to `key`, oldest first. */
  function AliasesOf(aliases: Aliases, key: Key): seq<Key> {
    if aliases == [] then []
    else if aliases[0].value == key then [aliases[0].key] + AliasesOf(aliases[1..], key)
    else AliasesOf(aliases[1..], key)
  }

  function Primary(entries: Entries, aliases: Aliases, key: Key): Key {
    if Has(entries, key) then key
    else match Get(aliases, key)
         case Some(p) => if Has(entries, p) then p else key
         case None => key
  }

  // ---- The stored part of the cache

  datatype Store = Store(entries: Entries, aliases: Aliases, total: int)

  /** Every alias reaches a live entry in one hop, the byte total is exact, and all bounds hold. */
  ghost predicate StoreOk(s: Store) {
    && Distinct(s.entries) && Distinct(s.aliases)
    && s.total == Sum(s.entries) && Fits(s.entries)
    && |s.aliases| <= MAX_ALIASES
    && (forall p :: p in s.aliases ==> Has(s.entries, p.value) && p.key != p.value)
    && (forall p :: p in s.entries ==> 0 < |p.value.bytes| <= MAX_ENTRY_BYTES)
  }

  ghost function DropOne(s: Store, key: Key): Store {
    var i := IndexOf(s.entries, key);
    if i < |s.entries| then
      Store(Delete(s.entries, key), WithoutKeys(s.aliases, {key}), s.total - |s.entries[i].value.bytes|)
    else s
  }

  /** The eviction pass as a policy: expired entries go, then the shortest LRU prefix. */
  ghost function Evicted(s: Store, now: int): Store {
    var kept := Trim(Live(s.entries, now));
    Store(kept, PruneAliases(WithoutKeys(s.aliases, KeySet(s.entries) - KeySet(kept)), kept), Sum(kept))
  }

  predicate Refreshes(s: Store, key: Key, bytes: Bytes, now: int) {
    match Get(s.entries, key)
    case Some(e) => |e.bytes| == |bytes| && now - e.storedAt < REFRESH_WINDOW_MS
    case None => false
  }

  datatype Meta = Meta(contentType: Option<string>, status: int, alias: Option<Key>, pageAlias: Option<Key>)

  predicate Accepts(enabled: bool, key: Option<Key>, bytes: Bytes) {
    enabled && key.Some? && 0 < |bytes| <= MAX_ENTRY_BYTES
  }

  function NewEntry(bytes: Bytes, meta: Meta, now: int): Entry {
    Entry(bytes,
          if meta.contentType.Some? then meta.contentType.value else "application/octet-stream",
          if meta.status == 0 then 200 else meta.status,
          now)
  }

  /** A same-size put within the refresh window keeps the old bytes and only renews them. */
  function Refreshed(e: Entry, meta: Meta, now: int): Entry {
    e.(storedAt := now, contentType := if meta.contentType.Some? then meta.contentType.value else e.contentType)
  }

  ghost function RegisterBoth(s: Store, meta: Meta, key: Key): Store {
    var a := Register(s.aliases, s.entries, meta.alias, key);
    s.(aliases := Register(a, s.entries, meta.pageAlias, key))
  }

  /** The entry a put leaves under its key. */
  function PutEntry(s: Store, key: Key, bytes: Bytes, meta: Meta, now: int): Entry {
    match Get(s.entries, key)
    case Some(e) => if Refreshes(s, key, bytes, now) then Refreshed(e, meta, now) else NewEntry(bytes, meta, now)
    case None => NewEntry(bytes, meta, now)
  }

  ghost function AfterPut(s: Store, key: Key, bytes: Bytes, meta: Meta, now: int): Store {
    var entries := Append(s.entries, key, PutEntry(s, key, bytes, meta, now));
    var placed := RegisterBoth(Store(entries, s.aliases, Sum(entries)), meta, key);
    if Refreshes(s, key, bytes, now) then placed else Evicted(placed, now)
  }

  ghost function AfterGet(s: Store, key: Key, now: int): Store {
    var p := Primary(s.entries, s.aliases, key);
    match Get(s.entries, p)
    case Some(e) =>
      var touched := s.(entries := Append(s.entries, p, e));
      if Expired(e, now) then DropOne(touched, p) else touched
    case None => s
  }

  function GetResult(s: Store, key: Key, now: int): Option<Payload> {
    match Get(s.entries, Primary(s.entries, s.aliases, key))
    case Some(e) => if Expired(e, now) then None else Some(Serve(e))
    case None => None
  }

  /** A presence test drops the expired entry it finds, and changes nothing else. */
  ghost function AfterProbe(s: Store, key: Key, now: int): Store {
    var p := Primary(s.entries, s.aliases, key);
    match Get(s.entries, p)
    case Some(e) => if Expired(e, now) then DropOne(s, p) else s
    case None => s
  }

  /** Two keys can be aliased when one of them is stored or the first is itself an alias. */
  predicate CanAlias(s: Store, from: Key, to: Key) {
    from != to && (Has(s.entries, to) || Has(s.entries, from) || Get(s.aliases, from).Some?)
  }

  /** aliasHotBytes: alias whichever side is not stored to the side that is. */
  ghost function AfterAlias(s: Store, from: Key, to: Key): Store {
    if from == to then s
    else if Has(s.entries, to) then s.(aliases := Register(s.aliases, s.entries, Some(from), to))
    else if Has(s.entries, from) then s.(aliases := Register(s.aliases, s.entries, Some(to), from))
    else match Get(s.aliases, from)
         case Some(p) => s.(aliases := Register(s.aliases, s.entries, Some(to), p))
         case None => s
  }

  // ---- Waiters

  datatype Waiter = Pending(key: Key) | Resolved(payload: Option<Payload>)

  type Parked = OMap<Key, seq<nat>>

  datatype Waiters = Waiters(byKey: Parked, all: seq<Waiter>)

  ghost predicate NoRepeats(ids: seq<nat>) {
    forall i, j :: 0 <= i < j < |ids| ==> ids[i] != ids[j]
  }

  /** A parked list: bounded, without repeats, and all its waiters pend on its key. */
  ghost predicate Consistent(all: seq<Waiter>, k: Key, ids: seq<nat>) {
    && 1 <= |ids| <= MAX_WAITERS_PER_KEY && NoRepeats(ids)
    && (forall i :: 0 <= i < |ids| ==> ids[i] < |all| && all[ids[i]] == Pending(k))
  }

  ghost predicate ListsOk(w: Waiters) {
    forall p :: p in w.byKey ==> Consistent(w.all, p.key, p.value)
  }

  ghost predicate Parks(w: Waiters, id: nat)
    requires id < |w.all|
  {
    w.all[id].Pending? ==> Has(w.byKey, w.all[id].key) && id in Get(w.byKey, w.all[id].key).value
  }

  ghost predicate AllParked(w: Waiters) {
    forall id: nat {:trigger Parks(w, id)} :: id < |w.all| ==> Parks(w, id)
  }

  /** Every pending waiter is parked once, under its own key, and no parked list is empty. */
  ghost predicate WaitersOk(w: Waiters) {
    Distinct(w.byKey) && |w.byKey| <= MAX_WAITER_KEYS && ListsOk(w) && AllParked(w)
  }

  /** Waiters settle at most once: a resolved one keeps its payload for good. */
  ghost predicate WaitersAdvance(a: Waiters, b: Waiters) {
    && |a.all| <= |b.all|
    && forall id :: 0 <= id < |a.all| ==> b.all[id] == a.all[id] || (a.all[id].Pending? && b.all[id].Resolved?)
  }

  function ResolveAll(all: seq<Waiter>, ids: seq<nat>, payload: Option<Payload>): seq<Waiter> {
    seq(|all|, i requires 0 <= i < |all| => if i in ids then Resolved(payload) else all[i])
  }

  function Wake(w: Waiters, key: Key, payload: Option<Payload>): Waiters {
    match Get(w.byKey, key)
    case Some(ids) => Waiters(Delete(w.byKey, key), ResolveAll(w.all, ids, payload))
    case None => w
  }

  function WakeEach(w: Waiters, keys: seq<Key>, payload: Option<Payload>): Waiters
    decreases |keys|
  {
    if keys == [] then w else WakeEach(Wake(w, keys[0], payload), keys[1..], payload)
  }

  /** Drops the oldest waiter keys over the bound, answering their waiters with nothing. */
  function PruneKeys(w: Waiters): Waiters
    decreases |w.byKey|
  {
    if |w.byKey| > MAX_WAITER_KEYS then PruneKeys(Wake(w, w.byKey[0].key, None)) else w
  }

  /** Parks waiter number `|w.all|` on `key`, or answers it at once when the key is full. */
  function Join(w: Waiters, key: Key): Waiters {
    var ids := Get(w.byKey, key).GetOr([]);
    if |ids| >= MAX_WAITERS_PER_KEY then w.(all := w.all + [Resolved(None)])
    else Waiters(Set(w.byKey, key, ids + [|w.all|]), w.all + [Pending(key)])
  }

  function Park(w: Waiters, key: Key): Waiters {
    Join(if Has(w.byKey, key) then w else PruneKeys(w.(byKey := w.byKey + [Pair(key, [])])), key)
  }

  function Without(ids: seq<nat>, id: nat): (r: seq<nat>)
    ensures forall x :: x in r <==> x in ids && x != id
    ensures |r| <= |ids|
  {
    if ids == [] then []
    else if ids[0] == id then Without(ids[1..], id)
    else [ids[0]] + Without(ids[1..], id)
  }

  /** A waiter's timer fires. */
  function TimeOut(w: Waiters, id: nat): Waiters
    requires id < |w.all|
  {
    match w.all[id]
    case Pending(k) =>
      var ids := Without(Get(w.byKey, k).GetOr([]), id);
      Waiters(if ids == [] then Delete(w.byKey, k) else Set(w.byKey, k, ids), w.all[id := Resolved(None)])
    case Resolved(_) => w
  }
}
