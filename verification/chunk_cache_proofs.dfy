/** What the persistent chunk cache keeps over any sequence of store, lookup, bridge, purge and eviction. */
module ChunkCacheProofs {
  import opened OrderedMap
  import opened UrlText
  import opened ChunkCacheSpec

  // ---- The memory index

  lemma {:induction false} SetAllPairs(index: Index, keys: seq<Key>, primary: Key)
    ensures forall p :: p in SetAll(index, keys, primary) ==>
      p in index || (p.value == primary && p.key in keys)
    decreases |keys|
  {
    if keys != [] {
      var m := Set(index, keys[0], primary);
      SetAllPairs(m, keys[1..], primary);
      forall p | p in m ensures p in index || p == Pair(keys[0], primary) {}
    }
  }

  lemma {:induction false} SetAllDistinct(index: Index, keys: seq<Key>, primary: Key)
    requires Distinct(index)
    ensures Distinct(SetAll(index, keys, primary))
    decreases |keys|
  {
    if keys != [] {
      SetDistinct(index, keys[0], primary);
      SetAllDistinct(Set(index, keys[0], primary), keys[1..], primary);
    }
  }

  lemma IndexKeysPairs(index: Index, primary: Key, keys: seq<Key>)
    ensures forall p :: p in IndexKeys(index, primary, keys) ==>
      p in index || (p.value == primary && (p.key == primary || p.key in keys))
  {
    SetAllPairs(index, [primary] + keys, primary);
  }

  lemma IndexKeysOk(index: Index, primary: Key, keys: seq<Key>)
    requires Distinct(index) && |index| <= MEMORY_KEY_INDEX_MAX
    ensures Distinct(IndexKeys(index, primary, keys)) && |IndexKeys(index, primary, keys)| <= MEMORY_KEY_INDEX_MAX
  {
    SetAllDistinct(index, [primary] + keys, primary);
  }

  lemma {:induction false} DropPrimariesMembers(index: Index, drop: set<Key>)
    ensures forall p :: p in DropPrimaries(index, drop) <==> p in index && p.value !in drop
    ensures |DropPrimaries(index, drop)| <= |index|
  {
    if index != [] { DropPrimariesMembers(index[1..], drop); }
  }

  lemma {:induction false} DropPrimariesDistinct(index: Index, drop: set<Key>)
    requires Distinct(index)
    ensures Distinct(DropPrimaries(index, drop))
  {
    if index != [] {
      DropPrimariesDistinct(index[1..], drop);
      DropPrimariesMembers(index[1..], drop);
      var rest := DropPrimaries(index[1..], drop);
      forall j | 0 <= j < |rest| ensures rest[j].key != index[0].key { assert rest[j] in index[1..]; }
    }
  }

  ghost predicate IndexOk(s: State) {
    Distinct(s.index) && |s.index| <= MEMORY_KEY_INDEX_MAX
  }

  // ---- Lookup

  /** A pass keeps the rows, only forgets alias rows, and only indexes the row it serves. */
  ghost predicate PassOk(s: State, r: State, hit: Option<Hit>, keys: seq<Key>, expected: string) {
    && r.chunks == s.chunks
    && (forall a :: a in r.aliases ==> a in s.aliases && r.aliases[a] == s.aliases[a])
    && (forall p :: p in r.index ==>
          p in s.index || (hit.Some? && p.value == hit.value.row
                           && (p.key == hit.value.row || (hit.value.via.Alias? && p.key == hit.value.key))))
    && (hit.Some? ==>
          && hit.value.key in keys && Serves(s, hit.value.row, expected)
          && match hit.value.via
             case Direct => hit.value.row == hit.value.key
             case Memory => Pair(hit.value.key, hit.value.row) in s.index
             case Alias => hit.value.key in s.aliases && s.aliases[hit.value.key] == hit.value.row)
  }

  lemma {:induction false} MemoryPassOk(s: State, keys: seq<Key>, expected: string)
    ensures var (r, hit) := MemoryPass(s, keys, expected); PassOk(s, r, hit, keys, expected)
    decreases |keys|
  {
    if keys != [] {
      match Get(s.index, keys[0])
      case None => MemoryPassOk(s, keys[1..], expected);
      case Some(primary) =>
        if primary in s.chunks && s.chunks[primary].hasBytes {
          if Serves(s, primary, expected) {
            assert s.index[IndexOf(s.index, keys[0])] in s.index;
          } else {
            MemoryPassOk(s, keys[1..], expected);
          }
        } else {
          DropPrimariesMembers(s.index, {primary});
          MemoryPassOk(s.(index := DropPrimaries(s.index, {primary})), keys[1..], expected);
        }
    }
  }

  lemma {:induction false} StorePassOk(s: State, keys: seq<Key>, expected: string)
    ensures var (r, hit) := StorePass(s, keys, expected); PassOk(s, r, hit, keys, expected)
    decreases |keys|
  {
    if keys != [] {
      var k := keys[0];
      if Serves(s, k, expected) {
        IndexKeysPairs(s.index, k, []);
      } else if k !in s.aliases {
        StorePassOk(s, keys[1..], expected);
      } else if Serves(s, s.aliases[k], expected) {
        IndexKeysPairs(s.index, s.aliases[k], [k]);
      } else {
        StorePassOk(s.(aliases := s.aliases - {k}), keys[1..], expected);
      }
    }
  }

  lemma LookupOk(V: Variants, s: State, url: string, expected: string)
    ensures var (r, hit) := Lookup(V, s, url, expected); PassOk(s, r, hit, V(url), expected)
  {
    MemoryPassOk(s, V(url), expected);
    var m := MemoryPass(s, V(url), expected);
    if m.1.None? { StorePassOk(m.0, V(url), expected); }
  }

  /** No hit, on any of the three paths, crosses pages when both scopes are known. */
  lemma HitsStayOnPage(V: Variants, s: State, url: string, expected: string)
    ensures var hit := Lookup(V, s, url, expected).1;
      hit.Some? ==>
        && hit.value.row in s.chunks
        && (s.chunks[hit.value.row].scope != "" && expected != "" ==>
              PageOf(s.chunks[hit.value.row].scope) == PageOf(expected))
  {
    LookupOk(V, s, url, expected);
  }

  lemma {:induction false} MemoryPassIndexOk(s: State, keys: seq<Key>, expected: string)
    requires IndexOk(s)
    ensures IndexOk(MemoryPass(s, keys, expected).0)
    decreases |keys|
  {
    if keys != [] {
      match Get(s.index, keys[0])
      case None => MemoryPassIndexOk(s, keys[1..], expected);
      case Some(primary) =>
        DropPrimariesDistinct(s.index, {primary});
        DropPrimariesMembers(s.index, {primary});
        MemoryPassIndexOk(s, keys[1..], expected);
        MemoryPassIndexOk(s.(index := DropPrimaries(s.index, {primary})), keys[1..], expected);
    }
  }

  lemma {:induction false} StorePassIndexOk(s: State, keys: seq<Key>, expected: string)
    requires IndexOk(s)
    ensures IndexOk(StorePass(s, keys, expected).0)
    decreases |keys|
  {
    if keys != [] {
      var k := keys[0];
      IndexKeysOk(s.index, k, []);
      if k in s.aliases {
        IndexKeysOk(s.index, s.aliases[k], [k]);
        StorePassIndexOk(s.(aliases := s.aliases - {k}), keys[1..], expected);
      } else {
        StorePassIndexOk(s, keys[1..], expected);
      }
    }
  }

  lemma LookupIndexOk(V: Variants, s: State, url: string, expected: string)
    requires IndexOk(s)
    ensures IndexOk(Lookup(V, s, url, expected).0)
  {
    MemoryPassIndexOk(s, V(url), expected);
    StorePassIndexOk(MemoryPass(s, V(url), expected).0, V(url), expected);
  }

  lemma {:induction false} SetAllKeeps(index: Index, keys: seq<Key>, primary: Key, k: Key)
    requires Distinct(index) && Get(index, k) == Some(primary)
    ensures Get(SetAll(index, keys, primary), k) == Some(primary)
    decreases |keys|
  {
    if keys != [] {
      SetDistinct(index, keys[0], primary);
      SetGet(index, keys[0], primary, k);
      SetAllKeeps(Set(index, keys[0], primary), keys[1..], primary, k);
    }
  }

  /** Indexing makes every given key lead to the primary. */
  lemma {:induction false} SetAllLeads(index: Index, keys: seq<Key>, primary: Key, k: Key)
    requires Distinct(index) && k in keys
    ensures Get(SetAll(index, keys, primary), k) == Some(primary)
    decreases |keys|
  {
    SetDistinct(index, keys[0], primary);
    SetGet(index, keys[0], primary, keys[0]);
    if k == keys[0] {
      SetAllKeeps(Set(index, k, primary), keys[1..], primary, k);
    } else {
      SetAllLeads(Set(index, keys[0], primary), keys[1..], primary, k);
    }
  }

  lemma TrimmedGet(index: Index, k: Key)
    requires Distinct(index)
    ensures Get(TrimIndex(index), k) == None || Get(TrimIndex(index), k) == Get(index, k)
  {
    var t := TrimIndex(index);
    if Get(t, k).Some? {
      assert Pair(k, Get(t, k).value) in t;
      GetIff(index, k, Get(t, k).value);
    }
  }

  /** None of the keys leads anywhere else than to `primary`. */
  ghost predicate LeadOnlyTo(index: Index, keys: seq<Key>, primary: Key) {
    forall k :: k in keys ==> Get(index, k) == None || Get(index, k) == Some(primary)
  }

  lemma StoredLeads(index: Index, keys: seq<Key>)
    requires Distinct(index) && keys != [] && keys[0] != ""
    ensures LeadOnlyTo(IndexKeys(index, keys[0], keys[1..]), keys, keys[0])
  {
    assert [keys[0]] + keys[1..] == keys;
    SetAllDistinct(index, keys, keys[0]);
    forall k | k in keys
      ensures var g := Get(IndexKeys(index, keys[0], keys[1..]), k); g == None || g == Some(keys[0])
    {
      SetAllLeads(index, keys, keys[0], k);
      TrimmedGet(SetAll(index, keys, keys[0]), k);
    }
  }

  /** While its keys lead nowhere else, the memory pass serves the primary or finds nothing. */
  lemma {:induction false} MemoryPassServes(s: State, keys: seq<Key>, expected: string, primary: Key)
    requires Serves(s, primary, expected) && LeadOnlyTo(s.index, keys, primary)
    ensures var (r, hit) := MemoryPass(s, keys, expected); r == s && (hit.Some? ==> hit.value.row == primary)
    decreases |keys|
  {
    if keys != [] && Get(s.index, keys[0]) == None { MemoryPassServes(s, keys[1..], expected, primary); }
  }

  /**
   What was stored is found: right after a store that is no duplicate, a lookup in a compatible scope
   serves the very row just stored.
   */
  lemma StoredIsFound(V: Variants, s: State, url: string, row: Row, expected: string, window: int)
    requires ValidVariants(V) && StripHash(url) != "" && V(StripHash(url)) != [] && IndexOk(s)
    requires row.hasBytes && ScopeCompatible(row.scope, expected)
    requires !DuplicateWrite(s, V(StripHash(url))[0], row, window)
    ensures var primary := V(StripHash(url))[0];
      var r := Store(V, s, url, row, false, window);
      var hit := Lookup(V, r, StripHash(url), expected).1;
      hit.Some? && hit.value.row == primary && primary in r.chunks && r.chunks[primary] == row
  {
    var r := Store(V, s, url, row, false, window);
    var keys := V(StripHash(url));
    assert keys[0] != "";
    StoredLeads(s.index, keys);
    MemoryPassServes(r, keys, expected, keys[0]);
  }

  // ---- Dangling mappings

  lemma LookupNoDangling(V: Variants, s: State, url: string, expected: string)
    requires NoDangling(s)
    ensures NoDangling(Lookup(V, s, url, expected).0)
  {
    LookupOk(V, s, url, expected);
  }

  lemma {:induction false} AliasAllOk(aliases: map<Key, Key>, keys: seq<Key>, target: Key)
    ensures var r := AliasAll(aliases, keys, target);
      && (forall a :: a in aliases ==> a in r)
      && (forall a :: a in r ==>
            (a in aliases && r[a] == aliases[a]) || (r[a] == target && a in keys && a != target))
      && (forall k :: k in keys && k != target ==> k in r && r[k] == target)
    decreases |keys|
  {
    if keys != [] {
      var m := if keys[0] == target then aliases else aliases[keys[0] := target];
      assert AliasAll(aliases, keys, target) == AliasAll(m, keys[1..], target);
      AliasAllOk(m, keys[1..], target);
      assert forall a :: a in aliases ==> a in m;
      forall k | k in keys && k != target
        ensures k in AliasAll(m, keys[1..], target) && AliasAll(m, keys[1..], target)[k] == target
      {
        if k !in keys[1..] { assert m[k] == target; }
      }
    }
  }

  lemma StoreNoDangling(V: Variants, s: State, url: string, row: Row, deduped: bool, window: int)
    requires NoDangling(s)
    ensures NoDangling(Store(V, s, url, row, deduped, window))
  {
    var keys := V(StripHash(url));
    if StripHash(url) != "" && keys != [] && !deduped {
      AliasAllOk(s.aliases, keys[1..], keys[0]);
      IndexKeysPairs(s.index, keys[0], keys[1..]);
      var r := Store(V, s, url, row, deduped, window);
      assert s.chunks.Keys <= r.chunks.Keys;
      assert !DuplicateWrite(s, keys[0], row, window) ==> keys[0] in r.chunks;
      forall a | a in r.aliases ensures r.aliases[a] in r.chunks {}
    }
  }

  lemma PurgeKeyOk(s: State, key: Key)
    ensures var r := PurgeKey(s, key);
      && r.chunks == s.chunks && r.aliases == s.aliases - {key}
      && (forall p :: p in r.index ==> p in s.index)
  {
  }

  lemma MinusHeadAndTail<V>(m: map<Key, V>, keys: seq<Key>)
    requires keys != []
    ensures m - {keys[0]} - (set k | k in keys[1..]) == m - (set k | k in keys)
  {
    assert (set k | k in keys) == {keys[0]} + (set k | k in keys[1..]);
  }

  lemma {:induction false} PurgeKeysOk(s: State, keys: seq<Key>)
    ensures var r := PurgeKeys(s, keys);
      && r.chunks == s.chunks && r.aliases == s.aliases - (set k | k in keys)
      && (forall p :: p in r.index ==> p in s.index)
    decreases |keys|
  {
    if keys != [] {
      PurgeKeyOk(s, keys[0]);
      PurgeKeysOk(PurgeKey(s, keys[0]), keys[1..]);
      MinusHeadAndTail(s.aliases, keys);
    }
  }

  lemma {:induction false} PurgeOk(V: Variants, s: State, urls: seq<string>)
    ensures var r := Purge(V, s, urls);
      && r.chunks == s.chunks
      && (forall a :: a in r.aliases ==> a in s.aliases && r.aliases[a] == s.aliases[a])
      && (forall p :: p in r.index ==> p in s.index)
    decreases |urls|
  {
    if urls != [] {
      PurgeKeysOk(s, V(urls[0]));
      PurgeOk(V, PurgeKeys(s, V(urls[0])), urls[1..]);
    }
  }

  /** After an eviction no alias row and no index entry leads to a deleted row, whatever held before. */
  lemma RemoveForgets(s: State, keys: set<Key>)
    ensures var r := Remove(s, keys);
      && r.chunks.Keys == s.chunks.Keys - keys
      && (forall a :: a in r.aliases ==> r.aliases[a] !in keys)
      && (forall p :: p in r.index ==> p.value !in keys)
      && (NoDangling(s) ==> NoDangling(r))
  {
    DropPrimariesMembers(s.index, keys);
  }

  /** The age sweep deletes the longest prefix of the creation order that is old enough and fits the batch. */
  lemma {:induction false} AgedIsPrefix(items: seq<Item>, bornAt: Key -> int, cutoff: int, batch: nat)
    requires InCreationOrder(items, bornAt)
    ensures var n := |Aged(items, bornAt, cutoff, batch)|;
      && n <= |items| && n <= batch && Aged(items, bornAt, cutoff, batch) == items[..n]
      && (forall i :: 0 <= i < n ==> bornAt(items[i].url) <= cutoff)
      && (n < |items| && n < batch ==> bornAt(items[n].url) > cutoff)
    decreases |items|
  {
    if items != [] && batch > 0 {
      var aged := bornAt(items[0].url) <= cutoff;
      var rest := items[1..];
      AgedIsPrefix(rest, bornAt, cutoff, if aged then batch - 1 else batch);
      if aged {
        var n := |Aged(rest, bornAt, cutoff, batch - 1)|;
        assert items[..n + 1] == [items[0]] + rest[..n];
      } else if rest != [] {
        assert bornAt(items[0].url) <= bornAt(items[1].url);
      }
    }
  }

  /**
   Exactly which rows the sweep of the reconcile lane deletes: those at least an hour old among the first
   250 of the creation order.  Guard ring and consumers have no part in it.
   */
  lemma SweptIff(items: seq<Item>, bornAt: Key -> int, now: int, i: nat)
    requires InCreationOrder(items, bornAt) && OneRowPerUrl(items) && i < |items|
    ensures items[i].url in Urls(Aged(items, bornAt, now - CACHE_TTL_SWEEP_MIN_AGE_MS, CACHE_TTL_SWEEP_MAX_DELETE)) <==>
      now - bornAt(items[i].url) >= CACHE_TTL_SWEEP_MIN_AGE_MS && i < CACHE_TTL_SWEEP_MAX_DELETE
  {
    var swept := Aged(items, bornAt, now - CACHE_TTL_SWEEP_MIN_AGE_MS, CACHE_TTL_SWEEP_MAX_DELETE);
    AgedIsPrefix(items, bornAt, now - CACHE_TTL_SWEEP_MIN_AGE_MS, CACHE_TTL_SWEEP_MAX_DELETE);
    if i < |swept| {
      assert Urls(swept)[i] == items[i].url;
    } else {
      forall k | 0 <= k < |swept| ensures Urls(swept)[k] != items[i].url { assert swept[k] == items[k]; }
      if |swept| < i { assert bornAt(items[|swept|].url) <= bornAt(items[i].url); }
    }
  }

  lemma {:induction false} BridgeAllAliases(s: State, keys: seq<Key>, target: Key)
    ensures var r := BridgeAll(s, keys, target);
      && r.chunks == s.chunks
      && (forall a :: a in s.aliases ==> a in r.aliases)
      && (forall a :: a in r.aliases ==>
            || (a in s.aliases && r.aliases[a] == s.aliases[a])
            || (r.aliases[a] == target && a in keys && a != "" && a != target))
      && (forall k :: k in keys && k != "" && k != target ==> k in r.aliases && r.aliases[k] == target)
    decreases |keys|
  {
    if keys != [] {
      if keys[0] == "" || keys[0] == target {
        BridgeAllAliases(s, keys[1..], target);
      } else {
        var m := s.(aliases := s.aliases[keys[0] := target], index := IndexKeys(s.index, target, [keys[0]]));
        BridgeAllAliases(m, keys[1..], target);
      }
    }
  }

  ghost predicate WritesMapping(keys: seq<Key>, target: Key) {
    exists k :: k in keys && k != "" && k != target
  }

  lemma {:induction false} BridgeAllIndex(s: State, keys: seq<Key>, target: Key)
    ensures forall p :: p in BridgeAll(s, keys, target).index ==>
      p in s.index || (p.value == target && (p.key == target || p.key in keys) && WritesMapping(keys, target))
    decreases |keys|
  {
    if keys != [] {
      assert WritesMapping(keys[1..], target) ==> WritesMapping(keys, target) by {
        if WritesMapping(keys[1..], target) {
          var k :| k in keys[1..] && k != "" && k != target;
          assert k in keys;
        }
      }
      if keys[0] == "" || keys[0] == target {
        BridgeAllIndex(s, keys[1..], target);
      } else {
        var m := s.(aliases := s.aliases[keys[0] := target], index := IndexKeys(s.index, target, [keys[0]]));
        IndexKeysPairs(s.index, target, [keys[0]]);
        assert keys[0] in keys;
        BridgeAllIndex(m, keys[1..], target);
      }
    }
  }

  /** The bridge writes a mapping to the probe it hit, and the probe is not itself a row. */
  ghost predicate BridgesToNonRow(V: Variants, s: State, oldUrl: string, newUrl: string) {
    var o := StripHash(oldUrl);
    var n := StripHash(newUrl);
    && o != "" && n != "" && o != n
    && var hit := Lookup(V, s, o, "").1;
       && hit.Some? && hit.value.key !in s.chunks
       && WritesMapping(V(n), hit.value.key)
  }

  /**
   Bridging from an alias or index hit targets the probe key instead of the row.  It leaves every
   mapping leading to a row exactly when it does not write a mapping to a probe without a row.
   */
  lemma BridgeNoDanglingIff(V: Variants, s: State, oldUrl: string, newUrl: string)
    requires NoDangling(s)
    ensures NoDangling(Bridge(V, s, oldUrl, newUrl)) <==> !BridgesToNonRow(V, s, oldUrl, newUrl)
  {
    var o := StripHash(oldUrl);
    var n := StripHash(newUrl);
    if o != "" && n != "" && o != n {
      var (m, hit) := Lookup(V, s, o, "");
      LookupOk(V, s, o, "");
      LookupNoDangling(V, s, o, "");
      if hit.Some? {
        BridgeAllAliases(m, V(n), hit.value.key);
        BridgeAllIndex(m, V(n), hit.value.key);
      }
    }
  }

  /** A URL without a query: its own only key. */
  function OwnKey(u: Key): seq<Key> {
    if u == "" || '#' in u then [] else [u]
  }

  const NOTHING := State(map[], map[], [])

  lemma BridgeAllOne(s: State, k: Key, target: Key)
    requires k != "" && k != target
    ensures BridgeAll(s, [k], target) == s.(aliases := s.aliases[k := target], index := IndexKeys(s.index, target, [k]))
  {
    var r := s.(aliases := s.aliases[k := target], index := IndexKeys(s.index, target, [k]));
    assert [k][1..] == [];
    assert BridgeAll(r, [], target) == r;
  }

  lemma BridgeOne(s: State, from: Key, to: Key, hit: Hit)
    requires from != "" && to != "" && '#' !in from && '#' !in to && from != to
    requires Lookup(OwnKey, s, from, "") == (s, Some(hit)) && hit.key == from
    ensures Bridge(OwnKey, s, from, to)
         == s.(aliases := s.aliases[to := from], index := IndexKeys(s.index, from, [to]))
  {
    StripClean(from);
    StripClean(to);
    BridgeAllOne(s, to, from);
  }

  lemma IndexedLookup(s: State, k: Key, p: Key)
    requires k != "" && '#' !in k && Get(s.index, k) == Some(p) && Serves(s, p, "")
    ensures Lookup(OwnKey, s, k, "") == (s, Some(Hit(p, k, if p == k then Direct else Memory)))
  {
  }

  lemma SetAllOne(index: Index, k: Key, primary: Key)
    ensures SetAll(index, [k], primary) == Set(index, k, primary)
  {
    assert [k][1..] == [];
  }

  lemma TwoIndexed(p: Key, k: Key)
    requires p != "" && k != p
    ensures IndexKeys([Pair(p, p)], p, [k]) == [Pair(p, p), Pair(k, p)]
    ensures Get([Pair(p, p), Pair(k, p)], k) == Some(p)
  {
    var one: Index := [Pair(p, p)];
    assert [p] + [k] == [p, k] && [p, k][1..] == [k];
    assert Set(one, p, p) == one;
    SetAllOne(one, k, p);
    assert IndexOf(one, k) == 1 by { assert one[1..] == []; }
    assert Set(one, k, p) == [Pair(p, p), Pair(k, p)];
    SetGet(one, k, p, k);
  }

  lemma FirstStored(p: Key, row: Row, window: int)
    requires p != "" && '#' !in p
    ensures Store(OwnKey, NOTHING, p, row, false, window) == State(map[p := row], map[], [Pair(p, p)])
  {
    StripClean(p);
    assert OwnKey(p) == [p] && [p][1..] == [];
    assert [p] + [] == [p];
    SetAllOne([], p, p);
    assert IndexKeys([], p, []) == [Pair(p, p)];
    assert NOTHING.chunks[p := row] == map[p := row];
    assert AliasAll(map[], [], p) == map[];
  }

  /**
   The failing family is reached by a run: store a URL, bridge it to a second one and that one to a third.
   The third then leads to the second, which is no row.
   */
  lemma BridgeChainDangles(p: Key, second: Key, third: Key, row: Row, window: int)
    requires p != "" && second != "" && third != "" && '#' !in p && '#' !in second && '#' !in third
    requires p != second && second != third && row.hasBytes
    ensures var es := [StoreEvent(p, row, false, window), BridgeEvent(p, second), BridgeEvent(second, third)];
      var r := Run(OwnKey, NOTHING, es);
      third in r.aliases && r.aliases[third] == second && second !in r.chunks && !NoDangling(r)
  {
    var e0, e1, e2 := StoreEvent(p, row, false, window), BridgeEvent(p, second), BridgeEvent(second, third);
    var s1 := State(map[p := row], map[], [Pair(p, p)]);
    FirstStored(p, row, window);
    IndexedLookup(s1, p, p);
    BridgeOne(s1, p, second, Hit(p, p, Direct));
    TwoIndexed(p, second);
    var s2 := State(map[p := row], map[second := p], [Pair(p, p), Pair(second, p)]);
    assert s1.aliases[second := p] == s2.aliases;
    assert Bridge(OwnKey, s1, p, second) == s2;
    IndexedLookup(s2, second, p);
    BridgeOne(s2, second, third, Hit(p, second, Memory));
    var s3 := Bridge(OwnKey, s2, second, third);
    assert [e0, e1, e2][1..] == [e1, e2] && [e1, e2][1..] == [e2] && [e2][1..] == [];
    assert Run(OwnKey, s3, []) == s3;
    assert Run(OwnKey, s2, [e2]) == s3;
    assert Run(OwnKey, s1, [e1, e2]) == s3;
    assert Run(OwnKey, NOTHING, [e0, e1, e2]) == s3;
  }

  /** Mappings lead to rows over every run whose bridges all target rows. */
  ghost predicate BridgesHitRows(V: Variants, s: State, es: seq<Event>)
    decreases |es|
  {
    es == [] ||
    (&& (es[0].BridgeEvent? ==> !BridgesToNonRow(V, s, es[0].oldUrl, es[0].newUrl))
     && BridgesHitRows(V, Step(V, s, es[0]), es[1..]))
  }

  /** Every state of the run has all its mappings on rows. */
  ghost predicate NeverDangles(V: Variants, s: State, es: seq<Event>)
    decreases |es|
  {
    NoDangling(s) && (es == [] || NeverDangles(V, Step(V, s, es[0]), es[1..]))
  }

  lemma StepNoDangling(V: Variants, s: State, e: Event)
    requires NoDangling(s)
    ensures NoDangling(Step(V, s, e)) <==> !(e.BridgeEvent? && BridgesToNonRow(V, s, e.oldUrl, e.newUrl))
  {
    match e
    case StoreEvent(url, row, deduped, window) => StoreNoDangling(V, s, url, row, deduped, window);
    case LookupEvent(url, expected) => LookupNoDangling(V, s, url, expected);
    case BridgeEvent(o, n) => BridgeNoDanglingIff(V, s, o, n);
    case PurgeEvent(urls) => PurgeOk(V, s, urls);
    case EvictEvent(keys) => RemoveForgets(s, keys);
  }

  /** Over a run every mapping always leads to a row exactly when every bridge of the run targets one. */
  lemma {:induction false} RunNoDanglingIff(V: Variants, s: State, es: seq<Event>)
    requires NoDangling(s)
    ensures NeverDangles(V, s, es) <==> BridgesHitRows(V, s, es)
    ensures BridgesHitRows(V, s, es) ==> NoDangling(Run(V, s, es))
    decreases |es|
  {
    if es != [] {
      StepNoDangling(V, s, es[0]);
      if NoDangling(Step(V, s, es[0])) { RunNoDanglingIff(V, Step(V, s, es[0]), es[1..]); }
    }
  }

  // ---- What was stored stays found

  /**
   The row is stored under the first key, no other key is a row, and the keys lead to the first one, or to
   another of them and so to no row.
   */
  ghost predicate Held(s: State, keys: seq<Key>, row: Row) {
    && keys != [] && keys[0] in s.chunks && s.chunks[keys[0]] == row
    && (forall k :: k in keys && k != keys[0] ==> k !in s.chunks)
    && (forall a :: a in s.aliases && a in keys ==> s.aliases[a] == keys[0])
    && (forall p :: p in s.index && p.key in keys ==> p.value in keys)
  }

  lemma StoreHolds(V: Variants, s: State, url: string, row: Row, window: int)
    requires ValidVariants(V) && StripHash(url) != "" && V(StripHash(url)) != [] && IndexOk(s)
    requires !DuplicateWrite(s, V(StripHash(url))[0], row, window)
    requires forall k :: k in V(StripHash(url))[1..] ==> k !in s.chunks
    requires var p := V(StripHash(url))[0]; p in s.aliases ==> s.aliases[p] == p
    ensures Held(Store(V, s, url, row, false, window), V(StripHash(url)), row)
  {
    var keys := V(StripHash(url));
    var r := Store(V, s, url, row, false, window);
    assert keys[0] != "";
    AliasAllOk(s.aliases, keys[1..], keys[0]);
    StoredLeads(s.index, keys);
    IndexKeysOk(s.index, keys[0], keys[1..]);
    forall k | k in keys && k != keys[0] ensures k in keys[1..] {}
    forall p | p in r.index && p.key in keys ensures p.value in keys { GetIff(r.index, p.key, p.value); }
  }

  lemma LookupHolds(V: Variants, s: State, keys: seq<Key>, row: Row, w: string, expected: string)
    requires Held(s, keys, row)
    ensures Held(Lookup(V, s, w, expected).0, keys, row)
  {
    LookupOk(V, s, w, expected);
  }

  lemma StoreElsewhereHolds(V: Variants, s: State, keys: seq<Key>, row: Row, e: Event)
    requires Held(s, keys, row) && e.StoreEvent? && Apart(V(StripHash(e.url)), keys)
    ensures Held(Step(V, s, e), keys, row)
  {
    var other := V(StripHash(e.url));
    if StripHash(e.url) != "" && other != [] && !e.deduped {
      AliasAllOk(s.aliases, other[1..], other[0]);
      IndexKeysPairs(s.index, other[0], other[1..]);
      assert other[0] in other;
      forall k | k in other[1..] ensures k in other {}
    }
  }

  lemma BridgeElsewhereHolds(V: Variants, s: State, keys: seq<Key>, row: Row, e: Event)
    requires Held(s, keys, row) && e.BridgeEvent? && Apart(V(StripHash(e.newUrl)), keys)
    ensures Held(Step(V, s, e), keys, row)
  {
    var o := StripHash(e.oldUrl);
    var n := StripHash(e.newUrl);
    if o != "" && n != "" && o != n {
      var (m, hit) := Lookup(V, s, o, "");
      LookupHolds(V, s, keys, row, o, "");
      if hit.Some? {
        BridgeAllAliases(m, V(n), hit.value.key);
        BridgeAllIndex(m, V(n), hit.value.key);
      }
    }
  }

  lemma StepHolds(V: Variants, s: State, url: string, row: Row, e: Event)
    requires Held(s, V(url), row) && Spares(V, e, url)
    ensures Held(Step(V, s, e), V(url), row)
  {
    match e
    case StoreEvent(_, _, _, _) => StoreElsewhereHolds(V, s, V(url), row, e);
    case LookupEvent(w, expected) => LookupHolds(V, s, V(url), row, w, expected);
    case BridgeEvent(_, _) => BridgeElsewhereHolds(V, s, V(url), row, e);
    case PurgeEvent(urls) => PurgeOk(V, s, urls);
    case EvictEvent(keys) => RemoveForgets(s, keys); DropPrimariesMembers(s.index, keys);
  }

  lemma {:induction false} RunHolds(V: Variants, s: State, es: seq<Event>, url: string, row: Row)
    requires Held(s, V(url), row) && forall i :: 0 <= i < |es| ==> Spares(V, es[i], url)
    ensures Held(Run(V, s, es), V(url), row)
    decreases |es|
  {
    if es != [] {
      StepHolds(V, s, url, row, es[0]);
      RunHolds(V, Step(V, s, es[0]), es[1..], url, row);
    }
  }

  /** The memory pass over a held URL's keys serves its row or nothing. */
  lemma {:induction false} MemoryPassHeld(s: State, probes: seq<Key>, expected: string, keys: seq<Key>, row: Row)
    requires Held(s, keys, row) && Serves(s, keys[0], expected) && forall k :: k in probes ==> k in keys
    ensures var (r, hit) := MemoryPass(s, probes, expected);
      r.chunks == s.chunks && (hit.Some? ==> hit.value.row == keys[0])
    decreases |probes|
  {
    if probes != [] {
      match Get(s.index, probes[0])
      case None => MemoryPassHeld(s, probes[1..], expected, keys, row);
      case Some(v) =>
        assert s.index[IndexOf(s.index, probes[0])] in s.index;
        if v != keys[0] {
          DropPrimariesMembers(s.index, {v});
          MemoryPassHeld(s.(index := DropPrimaries(s.index, {v})), probes[1..], expected, keys, row);
        }
    }
  }

  /**
   What was stored stays found: over any stores, lookups, bridges, purges and evictions that neither evict the
   row nor store or map one of the URL's keys, a lookup in a compatible scope serves the very row stored.
   When it was stored, no other key of the URL may have been a row, nor its first key an alias.
   */
  lemma StoredStaysFound(V: Variants, s: State, url: string, row: Row, window: int, es: seq<Event>, expected: string)
    requires ValidVariants(V) && StripHash(url) != "" && V(StripHash(url)) != [] && IndexOk(s)
    requires row.hasBytes && ScopeCompatible(row.scope, expected)
    requires !DuplicateWrite(s, V(StripHash(url))[0], row, window)
    requires forall k :: k in V(StripHash(url))[1..] ==> k !in s.chunks
    requires var p := V(StripHash(url))[0]; p in s.aliases ==> s.aliases[p] == p
    requires forall i :: 0 <= i < |es| ==> Spares(V, es[i], StripHash(url))
    ensures var r := Run(V, Store(V, s, url, row, false, window), es);
      var hit := Lookup(V, r, StripHash(url), expected).1;
      var primary := V(StripHash(url))[0];
      hit.Some? && hit.value.row == primary && primary in r.chunks && r.chunks[primary] == row
  {
    var keys := V(StripHash(url));
    StoreHolds(V, s, url, row, window);
    RunHolds(V, Store(V, s, url, row, false, window), es, StripHash(url), row);
    MemoryPassHeld(Run(V, Store(V, s, url, row, false, window), es), keys, expected, keys, row);
  }

  // ---- Purged URLs

  lemma PurgeKeyClears(s: State, key: Key)
    requires IndexOk(s)
    ensures var r := PurgeKey(s, key);
      && IndexOk(r) && key !in r.aliases && forall p :: p in r.index && p.key == key ==> p.value == key
  {
    DeleteDistinct(s.index, key);
    forall p | p in PurgeKey(s, key).index && p.key == key
      ensures p.value == key
    {
      GetIff(s.index, key, p.value);
    }
  }

  ghost predicate Clear(s: State, k: Key) {
    k !in s.aliases && forall p :: p in s.index && p.key == k ==> p.value == k
  }

  lemma {:induction false} PurgeKeysClear(s: State, keys: seq<Key>)
    requires IndexOk(s)
    ensures var r := PurgeKeys(s, keys); IndexOk(r) && forall k :: k in keys ==> Clear(r, k)
    decreases |keys|
  {
    if keys != [] {
      PurgeKeyClears(s, keys[0]);
      PurgeKeysClear(PurgeKey(s, keys[0]), keys[1..]);
      PurgeKeysOk(PurgeKey(s, keys[0]), keys[1..]);
    }
  }

  lemma {:induction false} PurgeIndexOk(V: Variants, s: State, urls: seq<string>)
    requires IndexOk(s)
    ensures IndexOk(Purge(V, s, urls))
    decreases |urls|
  {
    if urls != [] {
      PurgeKeysClear(s, V(urls[0]));
      PurgeIndexOk(V, PurgeKeys(s, V(urls[0])), urls[1..]);
    }
  }

  /** A purge leaves every given URL purged. */
  lemma {:induction false} PurgeClears(V: Variants, s: State, urls: seq<string>, url: string)
    requires IndexOk(s) && url in urls
    ensures IndexOk(Purge(V, s, urls)) && Purged(V, Purge(V, s, urls), url)
    decreases |urls|
  {
    var m := PurgeKeys(s, V(urls[0]));
    PurgeKeysClear(s, V(urls[0]));
    PurgeOk(V, m, urls[1..]);
    if url in urls[1..] {
      PurgeClears(V, m, urls[1..], url);
    } else {
      assert forall k :: k in V(url) ==> Clear(m, k);
      PurgeIndexOk(V, m, urls[1..]);
    }
  }

  lemma {:induction false} BridgeAllIndexOk(s: State, keys: seq<Key>, target: Key)
    requires IndexOk(s)
    ensures IndexOk(BridgeAll(s, keys, target))
    decreases |keys|
  {
    if keys != [] {
      IndexKeysOk(s.index, target, [keys[0]]);
      BridgeAllIndexOk(s, keys[1..], target);
      BridgeAllIndexOk(
        s.(aliases := s.aliases[keys[0] := target], index := IndexKeys(s.index, target, [keys[0]])), keys[1..], target);
    }
  }

  lemma StepIndexOk(V: Variants, s: State, e: Event)
    requires IndexOk(s)
    ensures IndexOk(Step(V, s, e))
  {
    match e
    case StoreEvent(url, _, _, _) =>
      if V(StripHash(url)) != [] { IndexKeysOk(s.index, V(StripHash(url))[0], V(StripHash(url))[1..]); }
    case LookupEvent(url, expected) => LookupIndexOk(V, s, url, expected);
    case BridgeEvent(o, n) =>
      var (m, hit) := Lookup(V, s, StripHash(o), "");
      LookupIndexOk(V, s, StripHash(o), "");
      if hit.Some? { BridgeAllIndexOk(m, V(StripHash(n)), hit.value.key); }
    case PurgeEvent(urls) => PurgeIndexOk(V, s, urls);
    case EvictEvent(keys) =>
      DropPrimariesDistinct(s.index, keys);
      DropPrimariesMembers(s.index, keys);
  }

  /** On every run the memory index holds each key once and at most 6000 of them. */
  lemma {:induction false} RunIndexOk(V: Variants, s: State, es: seq<Event>)
    requires IndexOk(s)
    ensures IndexOk(Run(V, s, es))
    decreases |es|
  {
    if es != [] {
      StepIndexOk(V, s, es[0]);
      RunIndexOk(V, Step(V, s, es[0]), es[1..]);
    }
  }

  lemma LookupKeepsPurged(V: Variants, s: State, url: string, w: string, expected: string)
    requires Purged(V, s, url)
    ensures Purged(V, Lookup(V, s, w, expected).0, url)
  {
    LookupOk(V, s, w, expected);
  }

  lemma StoreKeepsPurged(V: Variants, s: State, url: string, e: Event)
    requires Purged(V, s, url) && e.StoreEvent? && !Rewrites(V, e, url)
    ensures Purged(V, Step(V, s, e), url)
  {
    var keys := V(StripHash(e.url));
    if StripHash(e.url) != "" && keys != [] && !e.deduped {
      AliasAllOk(s.aliases, keys[1..], keys[0]);
      IndexKeysPairs(s.index, keys[0], keys[1..]);
      forall k | k in V(url) && k in keys[1..] ensures k == keys[0] { assert k in keys; }
    }
  }

  lemma BridgeKeepsPurged(V: Variants, s: State, url: string, e: Event)
    requires Purged(V, s, url) && e.BridgeEvent? && !Rewrites(V, e, url)
    ensures Purged(V, Step(V, s, e), url)
  {
    var o := StripHash(e.oldUrl);
    var n := StripHash(e.newUrl);
    if o != "" && n != "" && o != n {
      var (m, hit) := Lookup(V, s, o, "");
      LookupKeepsPurged(V, s, url, o, "");
      if hit.Some? {
        BridgeAllAliases(m, V(n), hit.value.key);
        BridgeAllIndex(m, V(n), hit.value.key);
      }
    }
  }

  lemma StepKeepsPurged(V: Variants, s: State, url: string, e: Event)
    requires Purged(V, s, url) && !Rewrites(V, e, url)
    ensures Purged(V, Step(V, s, e), url)
  {
    match e
    case StoreEvent(_, _, _, _) => StoreKeepsPurged(V, s, url, e);
    case LookupEvent(w, expected) => LookupKeepsPurged(V, s, url, w, expected);
    case BridgeEvent(_, _) => BridgeKeepsPurged(V, s, url, e);
    case PurgeEvent(urls) => PurgeOk(V, s, urls);
    case EvictEvent(keys) => RemoveForgets(s, keys); DropPrimariesMembers(s.index, keys);
  }

  /**
   Episode switch: after a purge, over any events until a store or bridge maps the URL's keys anew, a
   lookup of a purged URL finds nothing or a row stored under one of the URL's own keys.
   */
  lemma {:induction false} PurgedLookupsStayOwn(V: Variants, s: State, es: seq<Event>, url: string, expected: string)
    requires Purged(V, s, url)
    requires forall i :: 0 <= i < |es| ==> !Rewrites(V, es[i], url)
    ensures var hit := Lookup(V, Run(V, s, es), url, expected).1; hit.Some? ==> hit.value.row in V(url)
    decreases |es|
  {
    if es == [] {
      LookupOk(V, s, url, expected);
    } else {
      StepKeepsPurged(V, s, url, es[0]);
      PurgedLookupsStayOwn(V, Step(V, s, es[0]), es[1..], url, expected);
    }
  }

  // ---- Eviction

  lemma TargetsShift(u: seq<Item>, overEntries: int, overBytes: int, n: nat)
    requires n <= |u| && u != []
    ensures n > 0 ==>
      (TargetsMet(u, overEntries, overBytes, n)
       <==> TargetsMet(u[1..], overEntries - 1, overBytes - u[0].byteLength, n - 1))
    ensures n == 0 ==> (TargetsMet(u, overEntries, overBytes, n) <==> overEntries <= 0 && overBytes <= 0)
  {
    if n > 0 { assert u[..n][1..] == u[1..][..n - 1]; }
  }

  lemma {:induction false} TakeIsPrefix(order: seq<Item>, guarded: Key -> bool,
                                        overEntries: int, overBytes: int, batch: nat)
    ensures var u := Unprotected(order, guarded); var t := Take(order, guarded, overEntries, overBytes, batch);
      && |t| <= |u| && t == u[..|t|] && |t| <= batch
      && (forall n :: 0 <= n < |t| ==> !TargetsMet(u, overEntries, overBytes, n))
      && (|t| == |u| || |t| == batch || TargetsMet(u, overEntries, overBytes, |t|))
  {
    var u := Unprotected(order, guarded);
    var t := Take(order, guarded, overEntries, overBytes, batch);
    if order == [] || (overEntries <= 0 && overBytes <= 0) || batch == 0 {
      assert u[..0] == [];
    } else if guarded(order[0].url) {
      TakeIsPrefix(order[1..], guarded, overEntries, overBytes, batch);
    } else {
      var len := order[0].byteLength;
      TakeIsPrefix(order[1..], guarded, overEntries - 1, overBytes - len, batch - 1);
      var u' := u[1..];
      var t' := t[1..];
      forall n | 0 <= n < |t|
        ensures !TargetsMet(u, overEntries, overBytes, n)
      {
        TargetsShift(u, overEntries, overBytes, n);
      }
      TargetsShift(u, overEntries, overBytes, |t|);
    }
  }

  /**
   The eviction pass: it deletes a prefix of the unprotected rows in candidate order, the shortest one
   that meets both targets, and stops short of the targets only when the batch is full or no
   unprotected row is left.
   */
  lemma EvictionIsShortestPrefix(order: seq<Item>, guarded: Key -> bool, overEntries: int, overBytes: int)
    ensures var u := Unprotected(order, guarded);
      var t := Take(order, guarded, overEntries, overBytes, CACHE_MAX_EVICTION_BATCH);
      && |t| <= |u| && t == u[..|t|] && |t| <= CACHE_MAX_EVICTION_BATCH
      && (forall n :: 0 <= n < |t| ==> !TargetsMet(u, overEntries, overBytes, n))
      && (!TargetsMet(u, overEntries, overBytes, |t|) ==>
            |t| == CACHE_MAX_EVICTION_BATCH || |t| == |u|)
  {
    TakeIsPrefix(order, guarded, overEntries, overBytes, CACHE_MAX_EVICTION_BATCH);
  }

  lemma {:induction false} UnprotectedMembers(order: seq<Item>, guarded: Key -> bool)
    ensures forall x :: x in Unprotected(order, guarded) <==> x in order && !guarded(x.url)
  {
    if order != [] { UnprotectedMembers(order[1..], guarded); }
  }

  lemma TakeSparesGuarded(order: seq<Item>, guarded: Key -> bool, overEntries: int, overBytes: int, batch: nat)
    ensures forall x :: x in Take(order, guarded, overEntries, overBytes, batch) ==> x in order && !guarded(x.url)
  {
    TakeIsPrefix(order, guarded, overEntries, overBytes, batch);
    UnprotectedMembers(order, guarded);
  }

  // ---- What a pass leaves

  lemma DeletedRows(s: State, items: seq<Item>)
    ensures Deleted(s, items).chunks == s.chunks - UrlSet(items)
  {
  }

  lemma {:induction false} WithoutMembers(items: seq<Item>, gone: set<Key>)
    ensures forall x :: x in Without(items, gone) <==> x in items && x.url !in gone
    ensures |Without(items, gone)| <= |items| && Bytes(Without(items, gone)) <= Bytes(items)
  {
    if items != [] { WithoutMembers(items[1..], gone); }
  }

  lemma {:induction false} WithoutDistinct(items: seq<Item>, gone: set<Key>)
    requires OneRowPerUrl(items)
    ensures OneRowPerUrl(Without(items, gone))
  {
    if items != [] {
      WithoutDistinct(items[1..], gone);
      WithoutMembers(items[1..], gone);
      var rest := Without(items[1..], gone);
      forall j | 0 <= j < |rest| ensures rest[j].url != items[0].url { assert rest[j] in items[1..]; }
    }
  }

  lemma WithoutSummarises(items: seq<Item>, chunks: map<Key, Row>, gone: set<Key>)
    requires Summarises(items, chunks)
    ensures Summarises(Without(items, gone), chunks - gone)
  {
    var left := Without(items, gone);
    WithoutDistinct(items, gone);
    WithoutMembers(items, gone);
    forall i | 0 <= i < |left|
      ensures left[i].url in chunks - gone && (chunks - gone)[left[i].url].byteLength == left[i].byteLength
    {
      assert left[i] in left && left[i] in items;
    }
    forall k | k in chunks - gone ensures ListsUrl(left, k) {
      var i :| 0 <= i < |items| && items[i].url == k;
      assert items[i] in left;
    }
  }

  lemma {:induction false} WithoutTwice(items: seq<Item>, a: set<Key>, b: set<Key>)
    ensures Without(Without(items, a), b) == Without(items, a + b)
  {
    if items != [] { WithoutTwice(items[1..], a, b); }
  }

  lemma {:induction false} WithoutNone(items: seq<Item>, gone: set<Key>)
    requires forall i :: 0 <= i < |items| ==> items[i].url !in gone
    ensures Without(items, gone) == items
  {
    if items != [] { WithoutNone(items[1..], gone); }
  }

  lemma {:induction false} WithoutOne(items: seq<Item>, x: Item)
    requires OneRowPerUrl(items) && x in items
    ensures |Without(items, {x.url})| + 1 == |items|
    ensures Bytes(Without(items, {x.url})) + x.byteLength == Bytes(items)
  {
    if items[0] == x {
      WithoutNone(items[1..], {x.url});
    } else {
      assert x in items[1..];
      WithoutOne(items[1..], x);
    }
  }

  lemma UrlSetCons(rows: seq<Item>)
    requires rows != []
    ensures UrlSet(rows) == {rows[0].url} + UrlSet(rows[1..])
  {
    assert Urls(rows) == [rows[0].url] + Urls(rows[1..]);
  }

  /** Taking out distinct rows of a list lowers its length and its bytes by theirs. */
  lemma {:induction false} WithoutRows(items: seq<Item>, rows: seq<Item>)
    requires OneRowPerUrl(items) && OneRowPerUrl(rows) && forall x :: x in rows ==> x in items
    ensures |Without(items, UrlSet(rows))| + |rows| == |items|
    ensures Bytes(Without(items, UrlSet(rows))) + Bytes(rows) == Bytes(items)
    decreases |rows|
  {
    if rows == [] {
      WithoutNone(items, UrlSet(rows));
    } else {
      var x, rest := rows[0], rows[1..];
      WithoutOne(items, x);
      WithoutDistinct(items, {x.url});
      WithoutMembers(items, {x.url});
      WithoutRows(Without(items, {x.url}), rest);
      WithoutTwice(items, {x.url}, UrlSet(rest));
      UrlSetCons(rows);
    }
  }

  lemma {:induction false} UnprotectedDistinct(order: seq<Item>, guarded: Key -> bool)
    requires OneRowPerUrl(order)
    ensures OneRowPerUrl(Unprotected(order, guarded))
  {
    if order != [] {
      UnprotectedDistinct(order[1..], guarded);
      UnprotectedMembers(order[1..], guarded);
      var rest := Unprotected(order[1..], guarded);
      forall j | 0 <= j < |rest| ensures rest[j].url != order[0].url { assert rest[j] in order[1..]; }
    }
  }

  // ---- Candidate order

  ghost predicate Descending(items: seq<Item>, score: Key -> int) {
    forall i, j :: 0 <= i < j < |items| ==> score(items[i].url) >= score(items[j].url)
  }

  function WithScore(items: seq<Item>, score: Key -> int, v: int): seq<Item> {
    if items == [] then []
    else if score(items[0].url) == v then [items[0]] + WithScore(items[1..], score, v)
    else WithScore(items[1..], score, v)
  }

  lemma {:induction false} InsertPermutes(x: Item, sorted: seq<Item>, score: Key -> int)
    ensures multiset(InsertByScore(x, sorted, score)) == multiset(sorted) + multiset{x}
  {
    if sorted != [] && score(x.url) < score(sorted[0].url) {
      assert sorted == [sorted[0]] + sorted[1..];
      InsertPermutes(x, sorted[1..], score);
    }
  }

  lemma {:induction false} InsertMembers(x: Item, sorted: seq<Item>, score: Key -> int)
    ensures forall y :: y in InsertByScore(x, sorted, score) ==> y == x || y in sorted
  {
    if sorted != [] && score(x.url) < score(sorted[0].url) {
      InsertMembers(x, sorted[1..], score);
    }
  }

  lemma {:induction false} InsertSorted(x: Item, sorted: seq<Item>, score: Key -> int)
    requires Descending(sorted, score)
    ensures Descending(InsertByScore(x, sorted, score), score)
  {
    if sorted != [] && score(x.url) < score(sorted[0].url) {
      InsertSorted(x, sorted[1..], score);
      InsertMembers(x, sorted[1..], score);
      var r := InsertByScore(x, sorted[1..], score);
      forall j | 0 <= j < |r| ensures score(r[j].url) <= score(sorted[0].url) {
        assert r[j] in r;
      }
    }
  }

  lemma {:induction false} InsertStable(x: Item, sorted: seq<Item>, score: Key -> int, v: int)
    ensures WithScore(InsertByScore(x, sorted, score), score, v)
         == (if score(x.url) == v then [x] else []) + WithScore(sorted, score, v)
  {
    if sorted != [] && score(x.url) < score(sorted[0].url) {
      InsertStable(x, sorted[1..], score, v);
    } else {
      assert ([x] + sorted)[1..] == sorted;
    }
  }

  /** The candidate order: a permutation, by descending score, equal scores in creation order. */
  lemma {:induction false} SortSorts(items: seq<Item>, score: Key -> int)
    ensures var r := SortByScore(items, score);
      && Descending(r, score) && multiset(r) == multiset(items)
      && forall v :: WithScore(r, score, v) == WithScore(items, score, v)
  {
    if items != [] {
      SortSorts(items[1..], score);
      var rest := SortByScore(items[1..], score);
      InsertSorted(items[0], rest, score);
      InsertPermutes(items[0], rest, score);
      assert items == [items[0]] + items[1..];
      forall v ensures WithScore(SortByScore(items, score), score, v) == WithScore(items, score, v) {
        InsertStable(items[0], rest, score, v);
      }
    }
  }

  lemma {:induction false} InsertDistinct(x: Item, sorted: seq<Item>, score: Key -> int)
    requires OneRowPerUrl(sorted) && forall y :: y in sorted ==> y.url != x.url
    ensures OneRowPerUrl(InsertByScore(x, sorted, score))
  {
    if sorted != [] && score(x.url) < score(sorted[0].url) {
      InsertDistinct(x, sorted[1..], score);
      InsertMembers(x, sorted[1..], score);
      var r := InsertByScore(x, sorted[1..], score);
      forall j | 0 <= j < |r| ensures r[j].url != sorted[0].url { assert r[j] in r; }
    }
  }

  lemma SameMembers<T>(a: seq<T>, b: seq<T>)
    requires multiset(a) == multiset(b)
    ensures forall x :: x in a <==> x in b
  {
    forall x ensures x in a <==> x in b {
      assert x in a <==> x in multiset(a);
      assert x in b <==> x in multiset(b);
    }
  }

  lemma {:induction false} SortDistinct(items: seq<Item>, score: Key -> int)
    requires OneRowPerUrl(items)
    ensures OneRowPerUrl(SortByScore(items, score))
    ensures forall x :: x in SortByScore(items, score) <==> x in items
  {
    SortSorts(items, score);
    SameMembers(SortByScore(items, score), items);
    if items != [] {
      SortDistinct(items[1..], score);
      InsertDistinct(items[0], SortByScore(items[1..], score), score);
    }
  }

  lemma UrlsListed(items: seq<Item>)
    ensures forall x :: x in items ==> x.url in UrlSet(items)
  {
    forall x | x in items ensures x.url in UrlSet(items) {
      var i :| 0 <= i < |items| && items[i] == x;
      assert Urls(items)[i] == x.url;
    }
  }

  /**
   Taking victims out of a store summary leaves both targets met, unless the batch is full or every row left
   is protected.
   */
  lemma TakenLeaves(items: seq<Item>, guarded: Key -> bool, score: Key -> int, overEntries: int, overBytes: int)
    requires OneRowPerUrl(items)
    ensures var t := Take(SortByScore(items, score), guarded, overEntries, overBytes, CACHE_MAX_EVICTION_BATCH);
      var left := Without(items, UrlSet(t));
      || |t| == CACHE_MAX_EVICTION_BATCH
      || (forall x :: x in left ==> guarded(x.url))
      || (|left| <= |items| - overEntries && Bytes(left) <= Bytes(items) - overBytes)
  {
    var order := SortByScore(items, score);
    var u, t := Unprotected(order, guarded), Take(order, guarded, overEntries, overBytes, CACHE_MAX_EVICTION_BATCH);
    SortDistinct(items, score);
    UnprotectedDistinct(order, guarded);
    UnprotectedMembers(order, guarded);
    EvictionIsShortestPrefix(order, guarded, overEntries, overBytes);
    WithoutRows(items, t);
    WithoutMembers(items, UrlSet(t));
    if |t| == |u| {
      assert t == u;
      UrlsListed(t);
    } else if |t| < CACHE_MAX_EVICTION_BATCH {
      assert u[..|t|] == t;
    }
  }
}
