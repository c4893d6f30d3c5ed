/** The hot cache's representation invariant, its refinement of a plain LRU list, and its waiters. */
module HotCacheProofs {
  import opened OrderedMap
  import opened HotCacheSpec

  // ---- Byte sums

  lemma {:induction false} SumConcat(a: Entries, b: Entries)
    ensures Sum(a + b) == Sum(a) + Sum(b)
  {
    if a == [] {
      assert a + b == b;
    } else {
      assert (a + b)[1..] == a[1..] + b;
      SumConcat(a[1..], b);
    }
  }

  lemma SumOne(p: Pair<Key, Entry>)
    ensures Sum([p]) == |p.value.bytes|
  {
    assert [p][1..] == [];
  }

  lemma SumWithout(entries: Entries, i: nat)
    requires i < |entries|
    ensures Sum(entries[..i] + entries[i + 1..]) == Sum(entries) - |entries[i].value.bytes|
  {
    assert entries == entries[..i] + ([entries[i]] + entries[i + 1..]);
    SumConcat(entries[..i], [entries[i]] + entries[i + 1..]);
    SumConcat([entries[i]], entries[i + 1..]);
    SumConcat(entries[..i], entries[i + 1..]);
    SumOne(entries[i]);
  }

  lemma SumDelete(entries: Entries, key: Key)
    ensures Has(entries, key) ==>
      Sum(Delete(entries, key)) == Sum(entries) - |entries[IndexOf(entries, key)].value.bytes|
  {
    if Has(entries, key) { SumWithout(entries, IndexOf(entries, key)); }
  }

  lemma SumAppend(entries: Entries, key: Key, e: Entry)
    ensures Sum(Append(entries, key, e)) == Sum(Delete(entries, key)) + |e.bytes|
  {
    SumConcat(Delete(entries, key), [Pair(key, e)]);
    SumOne(Pair(key, e));
  }

  // ---- The LRU list

  /** Trimming removes the shortest prefix that restores both bounds. */
  lemma {:induction false} TrimShortest(entries: Entries) returns (k: nat)
    ensures k <= |entries| && Trim(entries) == entries[k..] && Fits(Trim(entries))
    ensures forall j :: 0 <= j < k ==> !Fits(entries[j..])
  {
    if entries == [] || Fits(entries) {
      k := 0;
    } else {
      var k' := TrimShortest(entries[1..]);
      k := k' + 1;
      forall j | 0 <= j < k
        ensures !Fits(entries[j..])
      {
        if j > 0 { assert entries[j..] == entries[1..][j - 1..]; }
      }
    }
  }

  /** The newest entry is never evicted: on its own it fits. */
  lemma TrimKeepsNewest(entries: Entries)
    requires entries != [] && |entries[|entries| - 1].value.bytes| <= MAX_ENTRY_BYTES
    ensures Trim(entries) != [] && Trim(entries)[|Trim(entries)| - 1] == entries[|entries| - 1]
  {
    var last := entries[|entries| - 1..];
    assert last == [entries[|entries| - 1]];
    SumOne(entries[|entries| - 1]);
    assert Fits(last);
    var k := TrimShortest(entries);
  }

  lemma {:induction false} LiveConcat(a: Entries, b: Entries, now: int)
    ensures Live(a + b, now) == Live(a, now) + Live(b, now)
  {
    if a == [] {
      assert a + b == b;
    } else {
      assert (a + b)[1..] == a[1..] + b;
      LiveConcat(a[1..], b, now);
    }
  }

  lemma {:induction false} LiveMembers(entries: Entries, now: int)
    ensures forall p :: p in Live(entries, now) <==> p in entries && !Expired(p.value, now)
  {
    if entries != [] { LiveMembers(entries[1..], now); }
  }

  lemma {:induction false} LiveDistinct(entries: Entries, now: int)
    requires Distinct(entries)
    ensures Distinct(Live(entries, now))
  {
    if entries != [] {
      LiveDistinct(entries[1..], now);
      LiveMembers(entries[1..], now);
      ConsDistinct(entries, Live(entries[1..], now));
    }
  }

  lemma TrimDistinct(entries: Entries)
    requires Distinct(entries)
    ensures Distinct(Trim(entries)) && (forall p :: p in Trim(entries) ==> p in entries) && Fits(Trim(entries))
  {
    var k := TrimShortest(entries);
  }

  lemma AppendDistinct(entries: Entries, key: Key, e: Entry)
    requires Distinct(entries)
    ensures Distinct(Append(entries, key, e))
    ensures forall p :: p in Append(entries, key, e) <==> p == Pair(key, e) || (p in entries && p.key != key)
  {
    DeleteDistinct(entries, key);
    var d := Delete(entries, key);
    forall j | 0 <= j < |d| ensures d[j].key != key { assert d[j] in d; }
  }

  lemma HasIff<V>(m: OMap<Key, V>, k: Key)
    ensures Has(m, k) <==> exists p :: p in m && p.key == k
  {
    if Has(m, k) { assert m[IndexOf(m, k)] in m; }
  }

  lemma AppendHas(entries: Entries, key: Key, e: Entry, k: Key)
    requires Distinct(entries)
    ensures Has(Append(entries, key, e), k) <==> k == key || Has(entries, k)
  {
    AppendDistinct(entries, key, e);
    var r := Append(entries, key, e);
    HasIff(r, k);
    HasIff(entries, k);
    if k == key { assert Pair(key, e) in r; }
    if Has(entries, k) && k != key {
      var p :| p in entries && p.key == k;
      assert p in r;
    }
  }

  // ---- Aliases

  lemma {:induction false} WithoutMembers(aliases: Aliases, dropped: set<Key>)
    ensures forall p :: p in WithoutKeys(aliases, dropped) <==>
      p in aliases && p.key !in dropped && p.value !in dropped
    ensures |WithoutKeys(aliases, dropped)| <= |aliases|
  {
    if aliases != [] { WithoutMembers(aliases[1..], dropped); }
  }

  lemma {:induction false} WithoutDistinct(aliases: Aliases, dropped: set<Key>)
    requires Distinct(aliases)
    ensures Distinct(WithoutKeys(aliases, dropped))
  {
    if aliases != [] {
      WithoutDistinct(aliases[1..], dropped);
      WithoutMembers(aliases[1..], dropped);
      ConsDistinct(aliases, WithoutKeys(aliases[1..], dropped));
    }
  }

  lemma {:induction false} ReachingMembers(aliases: Aliases, entries: Entries)
    ensures forall p :: p in Reaching(aliases, entries) <==> p in aliases && Has(entries, p.value)
    ensures |Reaching(aliases, entries)| <= |aliases|
  {
    if aliases != [] { ReachingMembers(aliases[1..], entries); }
  }

  lemma {:induction false} ReachingDistinct(aliases: Aliases, entries: Entries)
    requires Distinct(aliases)
    ensures Distinct(Reaching(aliases, entries))
  {
    if aliases != [] {
      ReachingDistinct(aliases[1..], entries);
      ReachingMembers(aliases[1..], entries);
      ConsDistinct(aliases, Reaching(aliases[1..], entries));
    }
  }

  lemma {:induction false} AliasesOfMembers(aliases: Aliases, key: Key)
    ensures forall a :: a in AliasesOf(aliases, key) <==> Pair(a, key) in aliases
  {
    if aliases != [] { AliasesOfMembers(aliases[1..], key); }
  }

  lemma {:induction false} ReachingAll(aliases: Aliases, entries: Entries)
    requires forall p :: p in aliases ==> Has(entries, p.value)
    ensures Reaching(aliases, entries) == aliases
  {
    if aliases != [] {
      assert aliases[0] in aliases;
      ReachingAll(aliases[1..], entries);
    }
  }

  lemma PruneOk(aliases: Aliases, entries: Entries)
    requires Distinct(aliases)
    ensures var r := PruneAliases(aliases, entries);
      && Distinct(r) && |r| <= MAX_ALIASES && |r| <= |aliases|
      && forall p :: p in r ==> p in aliases && Has(entries, p.value)
  {
    ReachingDistinct(aliases, entries);
    ReachingMembers(aliases, entries);
  }

  lemma SetPairs<V>(m: OMap<Key, V>, k: Key, v: V)
    requires Distinct(m)
    ensures forall p :: p in Set(m, k, v) ==> p == Pair(k, v) || (p in m && p.key != k)
  {
    SetDistinct(m, k, v);
    var r := Set(m, k, v);
    forall p | p in r && p != Pair(k, v)
      ensures p in m && p.key != k
    {
      var j :| 0 <= j < |r| && r[j] == p;
      assert j != IndexOf(m, k);
      assert j < |m| && m[j] == p;
    }
  }

  ghost predicate AliasesOk(aliases: Aliases, entries: Entries) {
    && Distinct(aliases) && |aliases| <= MAX_ALIASES
    && forall p :: p in aliases ==> Has(entries, p.value) && p.key != p.value
  }

  lemma RegisterOk(aliases: Aliases, entries: Entries, alias: Option<Key>, primary: Key)
    requires AliasesOk(aliases, entries) && Has(entries, primary)
    ensures AliasesOk(Register(aliases, entries, alias, primary), entries)
  {
    if alias.Some? && alias.value != primary {
      SetDistinct(aliases, alias.value, primary);
      SetPairs(aliases, alias.value, primary);
      PruneOk(Set(aliases, alias.value, primary), entries);
    }
  }

  // ---- Each operation keeps the store invariant

  ghost predicate EntriesOk(entries: Entries) {
    Distinct(entries) && forall p :: p in entries ==> 0 < |p.value.bytes| <= MAX_ENTRY_BYTES
  }

  lemma EvictedOk(s: Store, now: int)
    requires EntriesOk(s.entries) && AliasesOk(s.aliases, s.entries)
    ensures StoreOk(Evicted(s, now))
  {
    LiveDistinct(s.entries, now);
    LiveMembers(s.entries, now);
    TrimDistinct(Live(s.entries, now));
    var kept := Trim(Live(s.entries, now));
    var dropped := KeySet(s.entries) - KeySet(kept);
    WithoutDistinct(s.aliases, dropped);
    WithoutMembers(s.aliases, dropped);
    PruneOk(WithoutKeys(s.aliases, dropped), kept);
  }

  /** Eviction forgets exactly the aliases that start at or lead to an evicted entry. */
  lemma EvictedAliases(s: Store, now: int)
    requires EntriesOk(s.entries) && AliasesOk(s.aliases, s.entries)
    ensures Evicted(s, now).aliases == WithoutKeys(s.aliases, KeySet(s.entries) - KeySet(Evicted(s, now).entries))
  {
    LiveDistinct(s.entries, now);
    LiveMembers(s.entries, now);
    TrimDistinct(Live(s.entries, now));
    var kept := Trim(Live(s.entries, now));
    var dropped := KeySet(s.entries) - KeySet(kept);
    var left := WithoutKeys(s.aliases, dropped);
    WithoutMembers(s.aliases, dropped);
    forall p | p in left
      ensures Has(kept, p.value)
    {
      HasIff(s.entries, p.value);
      HasIff(kept, p.value);
      assert p.value in KeySet(s.entries);
    }
    ReachingAll(left, kept);
    WithoutDistinct(s.aliases, dropped);
    WithoutMembers(s.aliases, dropped);
  }

  lemma AppendAliasesOk(aliases: Aliases, entries: Entries, key: Key, e: Entry)
    requires AliasesOk(aliases, entries) && Distinct(entries)
    ensures AliasesOk(aliases, Append(entries, key, e))
  {
    forall p | p in aliases ensures Has(Append(entries, key, e), p.value) {
      AppendHas(entries, key, e, p.value);
    }
  }

  ghost function Placed(s: Store, key: Key, bytes: Bytes, meta: Meta, now: int): Store {
    var entries := Append(s.entries, key, PutEntry(s, key, bytes, meta, now));
    RegisterBoth(Store(entries, s.aliases, Sum(entries)), meta, key)
  }

  lemma PutEntrySize(s: Store, key: Key, bytes: Bytes, meta: Meta, now: int)
    ensures |PutEntry(s, key, bytes, meta, now).bytes| == |bytes|
  {
  }

  lemma PlacedOk(s: Store, key: Key, bytes: Bytes, meta: Meta, now: int)
    requires StoreOk(s) && 0 < |bytes| <= MAX_ENTRY_BYTES
    ensures var r := Placed(s, key, bytes, meta, now); EntriesOk(r.entries) && AliasesOk(r.aliases, r.entries)
  {
    var e := PutEntry(s, key, bytes, meta, now);
    PutEntrySize(s, key, bytes, meta, now);
    AppendDistinct(s.entries, key, e);
    AppendAliasesOk(s.aliases, s.entries, key, e);
    AppendHas(s.entries, key, e, key);
    var entries := Append(s.entries, key, e);
    RegisterOk(s.aliases, entries, meta.alias, key);
    RegisterOk(Register(s.aliases, entries, meta.alias, key), entries, meta.pageAlias, key);
  }

  lemma RefreshFits(s: Store, key: Key, bytes: Bytes, meta: Meta, now: int)
    requires StoreOk(s) && Refreshes(s, key, bytes, now)
    ensures Fits(Append(s.entries, key, PutEntry(s, key, bytes, meta, now)))
    ensures Sum(Append(s.entries, key, PutEntry(s, key, bytes, meta, now))) == s.total
  {
    SumDelete(s.entries, key);
    SumAppend(s.entries, key, PutEntry(s, key, bytes, meta, now));
    DeleteDistinct(s.entries, key);
  }

  /** After every put: exact byte total, at most 128 entries, 96 MiB and 256 one-hop aliases. */
  lemma PutKeepsStore(s: Store, key: Key, bytes: Bytes, meta: Meta, now: int)
    requires StoreOk(s) && 0 < |bytes| <= MAX_ENTRY_BYTES
    ensures StoreOk(AfterPut(s, key, bytes, meta, now))
  {
    PlacedOk(s, key, bytes, meta, now);
    if Refreshes(s, key, bytes, now) {
      RefreshFits(s, key, bytes, meta, now);
    } else {
      EvictedOk(Placed(s, key, bytes, meta, now), now);
    }
  }

  /**
   The refinement of a plain LRU list: a put that does not refresh moves its key to the recent end,
   drops the expired entries and then the shortest least recently used prefix, and never drops the
   entry just put.
   */
  lemma PutIsLru(s: Store, key: Key, bytes: Bytes, meta: Meta, now: int) returns (k: nat)
    requires StoreOk(s) && 0 < |bytes| <= MAX_ENTRY_BYTES && !Refreshes(s, key, bytes, now)
    ensures var entry := Pair(key, NewEntry(bytes, meta, now));
      var list := Live(Delete(s.entries, key), now) + [entry];
      var r := AfterPut(s, key, bytes, meta, now).entries;
      && k < |list| && r == list[k..] && r[|r| - 1] == entry
      && Fits(r) && forall j :: 0 <= j < k ==> !Fits(list[j..])
  {
    var e := NewEntry(bytes, meta, now);
    var entry: Pair<Key, Entry> := Pair(key, e);
    LiveConcat(Delete(s.entries, key), [entry], now);
    assert ([entry])[1..] == [];
    var list := Live(Delete(s.entries, key), now) + [entry];
    assert Live(Append(s.entries, key, e), now) == list;
    TrimKeepsNewest(list);
    k := TrimShortest(list);
  }

  /** A same-size put within two seconds keeps the old bytes, renews the entry and evicts nothing. */
  lemma RefreshKeepsBytes(s: Store, key: Key, bytes: Bytes, meta: Meta, now: int)
    requires StoreOk(s) && Refreshes(s, key, bytes, now)
    ensures var r := AfterPut(s, key, bytes, meta, now); var e := Get(s.entries, key).value;
      && r.entries == Delete(s.entries, key) + [Pair(key, Refreshed(e, meta, now))]
      && Refreshed(e, meta, now).bytes == e.bytes && r.total == s.total
      && KeySet(r.entries) == KeySet(s.entries)
  {
    RefreshFits(s, key, bytes, meta, now);
    var r := AfterPut(s, key, bytes, meta, now);
    AppendDistinct(s.entries, key, PutEntry(s, key, bytes, meta, now));
    forall k ensures k in KeySet(r.entries) <==> k in KeySet(s.entries) {
      AppendHas(s.entries, key, PutEntry(s, key, bytes, meta, now), k);
      HasIff(r.entries, k);
      HasIff(s.entries, k);
    }
  }

  lemma DropOneOk(s: Store, key: Key)
    requires StoreOk(s)
    ensures StoreOk(DropOne(s, key))
  {
    SumDelete(s.entries, key);
    DeleteDistinct(s.entries, key);
    WithoutDistinct(s.aliases, {key});
    WithoutMembers(s.aliases, {key});
    var r := DropOne(s, key);
    forall p | p in r.aliases ensures Has(r.entries, p.value) {
      HasIff(s.entries, p.value);
      HasIff(r.entries, p.value);
    }
  }

  lemma TouchOk(s: Store, key: Key)
    requires StoreOk(s) && Has(s.entries, key)
    ensures StoreOk(s.(entries := Append(s.entries, key, Get(s.entries, key).value)))
  {
    var e := Get(s.entries, key).value;
    assert s.entries[IndexOf(s.entries, key)] in s.entries;
    SumDelete(s.entries, key);
    SumAppend(s.entries, key, e);
    AppendDistinct(s.entries, key, e);
    DeleteDistinct(s.entries, key);
    AppendAliasesOk(s.aliases, s.entries, key, e);
  }

  /** A lookup only reorders the list or drops the one expired entry it found. */
  lemma GetKeepsStore(s: Store, key: Key, now: int)
    requires StoreOk(s)
    ensures StoreOk(AfterGet(s, key, now))
  {
    var p := Primary(s.entries, s.aliases, key);
    if Has(s.entries, p) {
      TouchOk(s, p);
      DropOneOk(s.(entries := Append(s.entries, p, Get(s.entries, p).value)), p);
    }
  }

  /**
   Reading back: within its lifetime the entry a put leaves is what a lookup of the key serves.  These are
   the bytes just put exactly when the put did not refresh, or the old bytes were the same.
   */
  lemma GetAfterPut(s: Store, key: Key, bytes: Bytes, meta: Meta, now: int, later: int)
    requires StoreOk(s) && 0 < |bytes| <= MAX_ENTRY_BYTES && later - now <= ENTRY_TTL_MS
    ensures var r := GetResult(AfterPut(s, key, bytes, meta, now), key, later);
      && r == Some(Serve(PutEntry(s, key, bytes, meta, now)))
      && (r.value.bytes == bytes <==> !Refreshes(s, key, bytes, now) || Get(s.entries, key).value.bytes == bytes)
  {
    var e := PutEntry(s, key, bytes, meta, now);
    var r := AfterPut(s, key, bytes, meta, now);
    PutKeepsStore(s, key, bytes, meta, now);
    if Refreshes(s, key, bytes, now) {
      RefreshKeepsBytes(s, key, bytes, meta, now);
      assert r.entries[|r.entries| - 1] == Pair(key, e);
    } else {
      var k := PutIsLru(s, key, bytes, meta, now);
    }
    assert Pair(key, e) in r.entries;
    GetIff(r.entries, key, e);
  }

  /** One-hop aliases: a lookup of an alias whose key holds no entry serves what its primary holds. */
  lemma AliasServesPrimary(s: Store, alias: Key, primary: Key, now: int)
    requires StoreOk(s) && Get(s.aliases, alias) == Some(primary) && !Has(s.entries, alias)
    ensures Has(s.entries, primary) && GetResult(s, alias, now) == GetResult(s, primary, now)
  {
    GetIff(s.aliases, alias, primary);
  }

  lemma AliasKeepsStore(s: Store, from: Key, to: Key)
    requires StoreOk(s)
    ensures StoreOk(AfterAlias(s, from, to))
  {
    if from != to {
      if Has(s.entries, to) {
        RegisterOk(s.aliases, s.entries, Some(from), to);
      } else if Has(s.entries, from) {
        RegisterOk(s.aliases, s.entries, Some(to), from);
      } else if Get(s.aliases, from).Some? {
        GetIff(s.aliases, from, Get(s.aliases, from).value);
        RegisterOk(s.aliases, s.entries, Some(to), Get(s.aliases, from).value);
      }
    }
  }

  // ---- Steps of the loops

  lemma {:induction false} WithoutConcat(a: Aliases, b: Aliases, dropped: set<Key>)
    ensures WithoutKeys(a + b, dropped) == WithoutKeys(a, dropped) + WithoutKeys(b, dropped)
  {
    if a == [] {
      assert a + b == b;
    } else {
      assert (a + b)[1..] == a[1..] + b;
      WithoutConcat(a[1..], b, dropped);
    }
  }

  lemma {:induction false} WithoutTwice(a: Aliases, d: set<Key>, e: set<Key>)
    ensures WithoutKeys(WithoutKeys(a, d), e) == WithoutKeys(a, d + e)
  {
    if a != [] { WithoutTwice(a[1..], d, e); }
  }

  lemma {:induction false} ReachingConcat(a: Aliases, b: Aliases, entries: Entries)
    ensures Reaching(a + b, entries) == Reaching(a, entries) + Reaching(b, entries)
  {
    if a == [] {
      assert a + b == b;
    } else {
      assert (a + b)[1..] == a[1..] + b;
      ReachingConcat(a[1..], b, entries);
    }
  }

  lemma {:induction false} AliasesOfConcat(a: Aliases, b: Aliases, key: Key)
    ensures AliasesOf(a + b, key) == AliasesOf(a, key) + AliasesOf(b, key)
  {
    if a == [] {
      assert a + b == b;
    } else {
      assert (a + b)[1..] == a[1..] + b;
      AliasesOfConcat(a[1..], b, key);
    }
  }

  lemma AliasesOfNext(a: Aliases, i: nat, key: Key)
    requires i < |a|
    ensures AliasesOf(a[..i + 1], key) == AliasesOf(a[..i], key) + if a[i].value == key then [a[i].key] else []
  {
    AliasesOfConcat(a[..i], [a[i]], key);
    assert a[..i + 1] == a[..i] + [a[i]];
    assert ([a[i]])[1..] == [];
  }

  lemma {:induction false} WakeEachSnoc(w: Waiters, keys: seq<Key>, key: Key, payload: Option<Payload>)
    ensures WakeEach(w, keys + [key], payload) == Wake(WakeEach(w, keys, payload), key, payload)
    decreases |keys|
  {
    if keys == [] {
      assert ([key])[1..] == [];
      assert keys + [key] == [key];
    } else {
      assert (keys + [key])[1..] == keys[1..] + [key];
      WakeEachSnoc(Wake(w, keys[0], payload), keys[1..], key, payload);
    }
  }

  lemma DroppedKeys(all: Entries, entries: Entries, key: Key)
    requires Distinct(entries) && Has(entries, key) && KeySet(entries) <= KeySet(all)
    ensures KeySet(all) - KeySet(Delete(entries, key)) == (KeySet(all) - KeySet(entries)) + {key}
    ensures KeySet(Delete(entries, key)) <= KeySet(all)
  {
    DeleteDistinct(entries, key);
    var d := Delete(entries, key);
    assert entries[IndexOf(entries, key)] in entries;
    forall k ensures k in KeySet(d) <==> k in KeySet(entries) && k != key {
      if k in KeySet(entries) && k != key {
        var p :| p in entries && p.key == k;
        assert p in d;
      }
    }
  }

  lemma {:induction false} WithoutNothing(aliases: Aliases, dropped: set<Key>)
    requires dropped == {}
    ensures WithoutKeys(aliases, dropped) == aliases
  {
    if aliases != [] { WithoutNothing(aliases[1..], dropped); }
  }

  lemma WithoutNext(it: Aliases, i: nat, dropped: set<Key>)
    requires i < |it|
    ensures WithoutKeys(it[..i + 1], dropped)
         == WithoutKeys(it[..i], dropped) + if it[i].key in dropped || it[i].value in dropped then [] else [it[i]]
  {
    TakeNext(it, i);
    WithoutConcat(it[..i], [it[i]], dropped);
    assert ([it[i]])[1..] == [];
  }

  lemma ReachingNext(it: Aliases, i: nat, entries: Entries)
    requires i < |it|
    ensures Reaching(it[..i + 1], entries)
         == Reaching(it[..i], entries) + if Has(entries, it[i].value) then [it[i]] else []
  {
    TakeNext(it, i);
    ReachingConcat(it[..i], [it[i]], entries);
    assert ([it[i]])[1..] == [];
  }

  lemma LiveNext(it: Entries, i: nat, now: int)
    requires i < |it|
    ensures Live(it[..i + 1], now) == Live(it[..i], now) + if Expired(it[i].value, now) then [] else [it[i]]
  {
    TakeNext(it, i);
    LiveConcat(it[..i], [it[i]], now);
    assert ([it[i]])[1..] == [];
  }

  /** Halfway through dropping the aliases of `dropped`: the first `i` of `it` are filtered. */
  ghost predicate HalfDropped(cur: Aliases, it: Aliases, i: nat, dropped: set<Key>) {
    i <= |it| && cur == WithoutKeys(it[..i], dropped) + it[i..] && Distinct(cur)
  }

  lemma WithoutTurn(it: Aliases, i: nat, key: Key, cur: Aliases, drop: bool)
    requires i < |it| && HalfDropped(cur, it, i, {key}) && drop == (it[i].value == key || it[i].key == key)
    ensures HalfDropped(if drop then Delete(cur, it[i].key) else cur, it, i + 1, {key})
  {
    WithoutNext(it, i, {key});
    FilterTurn(WithoutKeys(it[..i], {key}), it, i, drop, WithoutKeys(it[..i + 1], {key}));
  }

  lemma WithoutEnds(it: Aliases, dropped: set<Key>, cur: Aliases)
    ensures Distinct(it) ==> HalfDropped(it, it, 0, dropped)
    ensures HalfDropped(cur, it, |it|, dropped) ==> cur == WithoutKeys(it, dropped) && Distinct(cur)
  {
    assert it[..|it|] == it;
  }

  /** The first `i` aliases are filtered, the rest are as they were. */
  ghost predicate ReachingUpTo(it: Aliases, i: nat, entries: Entries, cur: Aliases) {
    i <= |it| && cur == Reaching(it[..i], entries) + it[i..] && Distinct(cur)
  }

  lemma ReachingEnds(it: Aliases, entries: Entries)
    requires Distinct(it)
    ensures ReachingUpTo(it, 0, entries, it)
    ensures forall cur :: ReachingUpTo(it, |it|, entries, cur) ==> cur == Reaching(it, entries) && Distinct(cur)
  {
    assert it[..|it|] == it;
  }

  lemma ReachingTurn(it: Aliases, i: nat, entries: Entries, cur: Aliases)
    requires i < |it| && ReachingUpTo(it, i, entries, cur)
    ensures ReachingUpTo(it, i + 1, entries, if Has(entries, it[i].value) then cur else Delete(cur, it[i].key))
  {
    ReachingNext(it, i, entries);
    FilterTurn(Reaching(it[..i], entries), it, i, !Has(entries, it[i].value), Reaching(it[..i + 1], entries));
  }

  lemma LiveTurn(it: Entries, i: nat, now: int, cur: Entries)
    requires i < |it| && cur == Live(it[..i], now) + it[i..] && Distinct(cur)
    ensures var next := if Expired(it[i].value, now) then Delete(cur, it[i].key) else cur;
      next == Live(it[..i + 1], now) + it[i + 1..] && Distinct(next) && Has(cur, it[i].key)
  {
    LiveNext(it, i, now);
    FilterTurn(Live(it[..i], now), it, i, Expired(it[i].value, now), Live(it[..i + 1], now));
  }

  lemma SuffixOfTail<T>(s: seq<T>, n: nat)
    requires n < |s|
    ensures s[1..][|s| - 1 - n..] == s[|s| - n..]
  {
  }

  lemma NewestOfTail(aliases: Aliases)
    requires |aliases| > MAX_ALIASES
    ensures Newest(aliases[1..]) == Newest(aliases)
  {
    SuffixOfTail(aliases, MAX_ALIASES);
  }

  /** What dropping one more key means for the aliases that were already filtered. */
  lemma DropMore(aliases: Aliases, all: Entries, entries: Entries, key: Key)
    requires Distinct(entries) && Has(entries, key) && KeySet(entries) <= KeySet(all)
    ensures KeySet(Delete(entries, key)) <= KeySet(all)
    ensures WithoutKeys(WithoutKeys(aliases, KeySet(all) - KeySet(entries)), {key})
         == WithoutKeys(aliases, KeySet(all) - KeySet(Delete(entries, key)))
  {
    DroppedKeys(all, entries, key);
    WithoutTwice(aliases, KeySet(all) - KeySet(entries), {key});
  }

  lemma ExpireTurn(aliases: Aliases, it: Entries, i: nat, now: int, cur: Entries)
    requires i < |it| && cur == Live(it[..i], now) + it[i..] && Distinct(cur) && KeySet(cur) <= KeySet(it)
    requires Expired(it[i].value, now)
    ensures var next := Delete(cur, it[i].key);
      && next == Live(it[..i + 1], now) + it[i + 1..] && Distinct(next) && KeySet(next) <= KeySet(it)
      && WithoutKeys(WithoutKeys(aliases, KeySet(it) - KeySet(cur)), {it[i].key})
      == WithoutKeys(aliases, KeySet(it) - KeySet(next))
  {
    LiveTurn(it, i, now, cur);
    DropMore(aliases, it, cur, it[i].key);
  }

  lemma TrimTurn(aliases: Aliases, all: Entries, entries: Entries)
    requires Distinct(entries) && !Fits(entries) && KeySet(entries) <= KeySet(all)
    ensures entries != []
    ensures var next := Delete(entries, entries[0].key);
      && Trim(next) == Trim(entries) && |next| < |entries| && KeySet(next) <= KeySet(all)
      && WithoutKeys(WithoutKeys(aliases, KeySet(all) - KeySet(entries)), {entries[0].key})
      == WithoutKeys(aliases, KeySet(all) - KeySet(next))
  {
    DropFirstPair(entries);
    DropMore(aliases, all, entries, entries[0].key);
  }

  lemma EvictCompose(aliases: Aliases, all: Entries, live: Entries, kept: Entries)
    requires KeySet(kept) <= KeySet(live) <= KeySet(all)
    ensures WithoutKeys(WithoutKeys(aliases, KeySet(all) - KeySet(live)), KeySet(live) - KeySet(kept))
         == WithoutKeys(aliases, KeySet(all) - KeySet(kept))
  {
    WithoutTwice(aliases, KeySet(all) - KeySet(live), KeySet(live) - KeySet(kept));
    assert (KeySet(all) - KeySet(live)) + (KeySet(live) - KeySet(kept)) == KeySet(all) - KeySet(kept);
  }

  // ---- Waiters

  lemma ConsistentMono(all: seq<Waiter>, all': seq<Waiter>, k: Key, ids: seq<nat>)
    requires Consistent(all, k, ids) && |all| <= |all'|
    requires forall i :: 0 <= i < |ids| ==> all'[ids[i]] == all[ids[i]]
    ensures Consistent(all', k, ids)
  {
  }

  lemma AnsweredOk(w: Waiters, payload: Option<Payload>)
    requires WaitersOk(w)
    ensures WaitersOk(w.(all := w.all + [Resolved(payload)]))
  {
    var r := w.(all := w.all + [Resolved(payload)]);
    forall p | p in r.byKey ensures Consistent(r.all, p.key, p.value) { ConsistentMono(w.all, r.all, p.key, p.value); }
    forall id: nat | id < |r.all| ensures Parks(r, id) {
      if id < |w.all| { assert Parks(w, id); }
    }
  }

  lemma ListOf(w: Waiters, k: Key)
    requires Distinct(w.byKey) && ListsOk(w) && Has(w.byKey, k)
    ensures Consistent(w.all, k, Get(w.byKey, k).value)
  {
    GetIff(w.byKey, k, Get(w.byKey, k).value);
  }

  lemma WakeLists(w: Waiters, key: Key, payload: Option<Payload>)
    requires Distinct(w.byKey) && ListsOk(w)
    ensures ListsOk(Wake(w, key, payload)) && Distinct(Wake(w, key, payload).byKey)
  {
    var r := Wake(w, key, payload);
    DeleteDistinct(w.byKey, key);
    if Has(w.byKey, key) {
      var ids := Get(w.byKey, key).value;
      ListOf(w, key);
      forall p | p in r.byKey
        ensures Consistent(r.all, p.key, p.value)
      {
        assert p in w.byKey && p.key != key;
        forall i | 0 <= i < |p.value| ensures p.value[i] !in ids { assert w.all[p.value[i]] == Pending(p.key); }
        ConsistentMono(w.all, r.all, p.key, p.value);
      }
    }
  }

  lemma WakeParks(w: Waiters, key: Key, payload: Option<Payload>, id: nat)
    requires Distinct(w.byKey) && id < |w.all| && Parks(w, id)
    ensures |Wake(w, key, payload).all| == |w.all| && Parks(Wake(w, key, payload), id)
  {
    if w.all[id].Pending? { DeleteGet(w.byKey, key, w.all[id].key); }
  }

  lemma WakeAllParked(w: Waiters, key: Key, payload: Option<Payload>)
    requires Distinct(w.byKey) && AllParked(w)
    ensures AllParked(Wake(w, key, payload)) && |Wake(w, key, payload).all| == |w.all|
  {
    forall id: nat | id < |w.all|
      ensures |Wake(w, key, payload).all| == |w.all| && Parks(Wake(w, key, payload), id)
    {
      WakeParks(w, key, payload, id);
    }
  }

  lemma WakeExact(w: Waiters, key: Key, payload: Option<Payload>)
    requires Distinct(w.byKey) && ListsOk(w) && AllParked(w)
    ensures |Wake(w, key, payload).all| == |w.all|
    ensures forall id: nat :: id < |w.all| ==>
      Wake(w, key, payload).all[id] == if w.all[id] == Pending(key) then Resolved(payload) else w.all[id]
  {
    if Has(w.byKey, key) { ListOf(w, key); }
    forall id: nat | id < |w.all|
      ensures Wake(w, key, payload).all[id] == if w.all[id] == Pending(key) then Resolved(payload) else w.all[id]
    {
      assert Parks(w, id);
    }
  }

  /** Waking a key settles all and only its waiters. */
  lemma WakeOk(w: Waiters, key: Key, payload: Option<Payload>)
    requires WaitersOk(w)
    ensures var r := Wake(w, key, payload);
      && WaitersOk(r) && WaitersAdvance(w, r) && |r.all| == |w.all|
      && (forall id: nat :: id < |w.all| ==>
            r.all[id] == if w.all[id] == Pending(key) then Resolved(payload) else w.all[id])
  {
    WakeLists(w, key, payload);
    WakeAllParked(w, key, payload);
    WakeExact(w, key, payload);
    DeleteDistinct(w.byKey, key);
  }

  lemma {:induction false} WakeEachOk(w: Waiters, keys: seq<Key>, payload: Option<Payload>)
    requires WaitersOk(w)
    ensures var r := WakeEach(w, keys, payload);
      && WaitersOk(r) && WaitersAdvance(w, r) && |r.all| == |w.all|
      && (forall id: nat :: id < |w.all| ==>
            r.all[id] == if w.all[id].Pending? && w.all[id].key in keys then Resolved(payload) else w.all[id])
    decreases |keys|
  {
    if keys != [] {
      WakeOk(w, keys[0], payload);
      WakeEachOk(Wake(w, keys[0], payload), keys[1..], payload);
    }
  }

  /** A successful put answers every waiter on the key and on each of its aliases, and nobody else. */
  lemma PutAnswersWaiters(w: Waiters, aliases: Aliases, key: Key, payload: Option<Payload>)
    requires WaitersOk(w)
    ensures var r := WakeEach(w, [key] + AliasesOf(aliases, key), payload);
      && WaitersOk(r) && WaitersAdvance(w, r) && |r.all| == |w.all|
      && forall id: nat :: id < |w.all| && w.all[id].Pending? ==>
           r.all[id] == if w.all[id].key == key || Pair(w.all[id].key, key) in aliases
                        then Resolved(payload) else w.all[id]
  {
    AliasesOfMembers(aliases, key);
    WakeEachOk(w, [key] + AliasesOf(aliases, key), payload);
  }

  /** The parked lists of an opening state, without the still empty one. */
  function Older(byKey: Parked): Parked {
    if byKey == [] then [] else byKey[..|byKey| - 1]
  }

  /** Like `WaitersOk`, while a just opened key still has no waiter and may exceed the key bound. */
  ghost predicate OpeningOk(w: Waiters, key: Key) {
    && Distinct(w.byKey) && w.byKey != [] && w.byKey[|w.byKey| - 1] == Pair(key, [])
    && |w.byKey| <= MAX_WAITER_KEYS + 1
    && ListsOk(w.(byKey := Older(w.byKey)))
    && AllParked(w)
  }

  lemma AppendGet<V>(m: OMap<Key, V>, p: Pair<Key, V>, k: Key)
    requires Has(m, k)
    ensures Get(m + [p], k) == Get(m, k)
  {
    assert (m + [p])[IndexOf(m, k)] == m[IndexOf(m, k)];
  }

  lemma OpenOk(w: Waiters, key: Key)
    requires WaitersOk(w) && !Has(w.byKey, key)
    ensures OpeningOk(w.(byKey := w.byKey + [Pair(key, [])]), key)
  {
    var v := w.(byKey := w.byKey + [Pair(key, [])]);
    GetNoneIff(w.byKey, key);
    assert Older(v.byKey) == w.byKey;
    forall id: nat | id < |v.all| ensures Parks(v, id) {
      assert Parks(w, id);
      if v.all[id].Pending? { AppendGet(w.byKey, Pair(key, []), v.all[id].key); }
    }
  }

  lemma OlderOfTail(byKey: Parked)
    requires |byKey| > 1
    ensures Older(byKey[1..]) == Older(byKey)[1..] && byKey[0] in Older(byKey)
  {
    assert Older(byKey)[0] == byKey[0];
  }

  lemma WakeHead(w: Waiters)
    requires w.byKey != [] && Distinct(w.byKey)
    ensures Wake(w, w.byKey[0].key, None)
         == Waiters(w.byKey[1..], ResolveAll(w.all, w.byKey[0].value, None))
  {
    DropFirstPair(w.byKey);
    assert IndexOf(w.byKey, w.byKey[0].key) == 0;
  }

  lemma PruneOneLists(w: Waiters)
    requires |w.byKey| > 1 && Distinct(w.byKey) && ListsOk(w.(byKey := Older(w.byKey)))
    ensures ListsOk(Wake(w, w.byKey[0].key, None).(byKey := Older(w.byKey[1..])))
  {
    var u := w.(byKey := Older(w.byKey));
    OlderOfTail(w.byKey);
    WakeHead(w);
    WakeHead(u);
    WakeLists(u, w.byKey[0].key, None);
  }

  /** Dropping the oldest key of an opening state: its waiters are answered, the rest stays. */
  lemma PruneOneOk(w: Waiters, key: Key)
    requires OpeningOk(w, key) && |w.byKey| > 1
    ensures OpeningOk(Wake(w, w.byKey[0].key, None), key)
    ensures Wake(w, w.byKey[0].key, None).byKey == w.byKey[1..]
    ensures |Wake(w, w.byKey[0].key, None).all| == |w.all|
  {
    WakeHead(w);
    DropFirstPair(w.byKey);
    PruneOneLists(w);
    WakeAllParked(w, w.byKey[0].key, None);
  }

  lemma PruneOneAdvances(w: Waiters, key: Key)
    requires OpeningOk(w, key) && |w.byKey| > 1
    ensures WaitersAdvance(w, Wake(w, w.byKey[0].key, None))
  {
    WakeHead(w);
    OlderOfTail(w.byKey);
    assert Consistent(w.all, w.byKey[0].key, w.byKey[0].value);
  }

  lemma PruneKeysOk(w: Waiters, key: Key)
    requires OpeningOk(w, key)
    ensures OpeningOk(PruneKeys(w), key) && WaitersAdvance(w, PruneKeys(w))
    ensures |PruneKeys(w).byKey| <= MAX_WAITER_KEYS && |PruneKeys(w).all| == |w.all|
    decreases |w.byKey|
  {
    if |w.byKey| > MAX_WAITER_KEYS {
      PruneOneOk(w, key);
      PruneOneAdvances(w, key);
      PruneKeysOk(Wake(w, w.byKey[0].key, None), key);
    }
  }

  lemma ParkLists(w: Waiters, key: Key, ids: seq<nat>)
    requires Distinct(w.byKey) && |ids| < MAX_WAITERS_PER_KEY && (ids != [] ==> Consistent(w.all, key, ids))
    requires forall p :: p in w.byKey && p.key != key ==> Consistent(w.all, p.key, p.value)
    ensures ListsOk(Waiters(Set(w.byKey, key, ids + [|w.all|]), w.all + [Pending(key)]))
  {
    var ids' := ids + [|w.all|];
    var all' := w.all + [Pending(key)];
    SetPairs(w.byKey, key, ids');
    assert Consistent(all', key, ids');
    forall p | p in Set(w.byKey, key, ids') ensures Consistent(all', p.key, p.value) {
      if p != Pair(key, ids') { ConsistentMono(w.all, all', p.key, p.value); }
    }
  }

  lemma ParkParksOld(w: Waiters, key: Key, ids: seq<nat>, id: nat)
    requires Distinct(w.byKey) && Get(w.byKey, key) == Some(ids) && id < |w.all| && Parks(w, id)
    ensures Parks(Waiters(Set(w.byKey, key, ids + [|w.all|]), w.all + [Pending(key)]), id)
  {
    if w.all[id].Pending? { SetGet(w.byKey, key, ids + [|w.all|], w.all[id].key); }
  }

  lemma ParkParksNew(w: Waiters, key: Key, ids: seq<nat>)
    requires Distinct(w.byKey)
    ensures Parks(Waiters(Set(w.byKey, key, ids + [|w.all|]), w.all + [Pending(key)]), |w.all|)
  {
    SetGet(w.byKey, key, ids + [|w.all|], key);
    assert (ids + [|w.all|])[|ids|] == |w.all|;
  }

  lemma ParkParks(w: Waiters, key: Key, ids: seq<nat>)
    requires Distinct(w.byKey) && Get(w.byKey, key) == Some(ids) && AllParked(w)
    ensures AllParked(Waiters(Set(w.byKey, key, ids + [|w.all|]), w.all + [Pending(key)]))
  {
    var r := Waiters(Set(w.byKey, key, ids + [|w.all|]), w.all + [Pending(key)]);
    forall id: nat | id < |r.all| ensures Parks(r, id) {
      if id < |w.all| {
        assert Parks(w, id);
        ParkParksOld(w, key, ids, id);
      } else {
        ParkParksNew(w, key, ids);
      }
    }
  }

  lemma ParkNewOk(w: Waiters, key: Key)
    requires WaitersOk(w) && !Has(w.byKey, key)
    ensures WaitersOk(Park(w, key)) && WaitersAdvance(w, Park(w, key)) && |Park(w, key).all| == |w.all| + 1
  {
    var v := PruneKeys(w.(byKey := w.byKey + [Pair(key, [])]));
    OpenOk(w, key);
    PruneKeysOk(w.(byKey := w.byKey + [Pair(key, [])]), key);
    var n := |v.byKey| - 1;
    assert v.byKey[n] in v.byKey;
    GetIff(v.byKey, key, []);
    forall p | p in v.byKey && p.key != key ensures Consistent(v.all, p.key, p.value) {
      assert p in Older(v.byKey);
    }
    ParkLists(v, key, []);
    ParkParks(v, key, []);
    SetDistinct(v.byKey, key, [] + [|v.all|]);
  }

  lemma ParkOldOk(w: Waiters, key: Key)
    requires WaitersOk(w) && Has(w.byKey, key)
    ensures WaitersOk(Park(w, key)) && WaitersAdvance(w, Park(w, key)) && |Park(w, key).all| == |w.all| + 1
  {
    var ids := Get(w.byKey, key).value;
    ListOf(w, key);
    if |ids| < MAX_WAITERS_PER_KEY {
      ParkLists(w, key, ids);
      ParkParks(w, key, ids);
      SetDistinct(w.byKey, key, ids + [|w.all|]);
    } else {
      AnsweredOk(w, None);
    }
  }

  /** Opening one key prunes at most the oldest one, whose waiters are answered. */
  lemma OpeningAnswers(w: Waiters, key: Key)
    requires WaitersOk(w) && !Has(w.byKey, key)
    ensures PruneKeys(w.(byKey := w.byKey + [Pair(key, [])])).all
         == if |w.byKey| == MAX_WAITER_KEYS then Wake(w, w.byKey[0].key, None).all else w.all
  {
    var v := w.(byKey := w.byKey + [Pair(key, [])]);
    if |w.byKey| == MAX_WAITER_KEYS {
      var oldest := w.byKey[0].key;
      assert IndexOf(w.byKey, oldest) == 0;
      AppendGet(w.byKey, Pair(key, []), oldest);
      var woken := Wake(v, oldest, None);
      DeleteDistinct(w.byKey, oldest);
      OpenOk(w, key);
      WakeHead(v);
      assert |woken.byKey| == MAX_WAITER_KEYS;
      assert PruneKeys(v) == PruneKeys(woken) == woken;
    }
  }

  /** Parking answers the waiters of the oldest key when a key too many is opened, and nobody else. */
  ghost predicate ParkAnswers(w: Waiters, key: Key, r: Waiters) {
    && |r.all| == |w.all| + 1
    && (forall id: nat :: id < |w.all| ==>
          r.all[id] == if !Has(w.byKey, key) && |w.byKey| == MAX_WAITER_KEYS && w.all[id] == Pending(w.byKey[0].key)
                       then Resolved(None) else w.all[id])
    && r.all[|w.all|] == if Has(w.byKey, key) && |Get(w.byKey, key).value| >= MAX_WAITERS_PER_KEY
                         then Resolved(None) else Pending(key)
  }

  lemma ParkNewAnswers(w: Waiters, key: Key)
    requires WaitersOk(w) && !Has(w.byKey, key)
    ensures ParkAnswers(w, key, Park(w, key))
  {
    var v := PruneKeys(w.(byKey := w.byKey + [Pair(key, [])]));
    OpenOk(w, key);
    PruneKeysOk(w.(byKey := w.byKey + [Pair(key, [])]), key);
    OpeningAnswers(w, key);
    var n := |v.byKey| - 1;
    assert v.byKey[n] in v.byKey;
    GetIff(v.byKey, key, []);
    if |w.byKey| == MAX_WAITER_KEYS { WakeOk(w, w.byKey[0].key, None); }
  }

  /** Waiting is bounded: at most 64 keys of 32 waiters, and overflowing waiters are answered, not lost. */
  lemma ParkOk(w: Waiters, key: Key)
    requires WaitersOk(w)
    ensures WaitersOk(Park(w, key)) && WaitersAdvance(w, Park(w, key)) && ParkAnswers(w, key, Park(w, key))
  {
    if Has(w.byKey, key) {
      ParkOldOk(w, key);
    } else {
      ParkNewOk(w, key);
      ParkNewAnswers(w, key);
    }
  }

  lemma {:induction false} WithoutNoRepeats(ids: seq<nat>, id: nat)
    requires NoRepeats(ids)
    ensures NoRepeats(Without(ids, id))
  {
    if ids != [] {
      WithoutNoRepeats(ids[1..], id);
      var rest := Without(ids[1..], id);
      forall j | 0 <= j < |rest| ensures rest[j] != ids[0] { assert rest[j] in ids[1..]; }
    }
  }

  lemma ShorterList(all: seq<Waiter>, k: Key, ids: seq<nat>, id: nat)
    requires Consistent(all, k, ids) && id < |all| && Without(ids, id) != []
    ensures Consistent(all[id := Resolved(None)], k, Without(ids, id))
  {
    var r := Without(ids, id);
    WithoutNoRepeats(ids, id);
    forall i | 0 <= i < |r| ensures r[i] < |all| && r[i] != id && all[r[i]] == Pending(k) { assert r[i] in ids; }
  }

  lemma TimeOutLists(w: Waiters, id: nat)
    requires WaitersOk(w) && id < |w.all| && w.all[id].Pending?
    ensures ListsOk(TimeOut(w, id))
  {
    var k := w.all[id].key;
    var all' := w.all[id := Resolved(None)];
    assert Parks(w, id);
    var ids := Get(w.byKey, k).value;
    ListOf(w, k);
    DeleteDistinct(w.byKey, k);
    SetPairs(w.byKey, k, Without(ids, id));
    forall p | p in TimeOut(w, id).byKey ensures Consistent(all', p.key, p.value) {
      if p.key == k {
        ShorterList(w.all, k, ids, id);
      } else {
        forall i | 0 <= i < |p.value| ensures p.value[i] != id { assert w.all[p.value[i]] == Pending(p.key); }
        ConsistentMono(w.all, all', p.key, p.value);
      }
    }
  }

  lemma TimeOutParks(w: Waiters, id: nat, x: nat)
    requires WaitersOk(w) && id < |w.all| && w.all[id].Pending? && x < |w.all|
    ensures Parks(TimeOut(w, id), x)
  {
    assert Parks(w, id) && Parks(w, x);
    var k := w.all[id].key;
    var ids := Without(Get(w.byKey, k).value, id);
    if w.all[x].Pending? && x != id {
      DeleteGet(w.byKey, k, w.all[x].key);
      SetGet(w.byKey, k, ids, w.all[x].key);
    }
  }

  lemma TimeOutMap(w: Waiters, id: nat)
    requires WaitersOk(w) && id < |w.all| && w.all[id].Pending?
    ensures Distinct(TimeOut(w, id).byKey) && |TimeOut(w, id).byKey| <= |w.byKey|
  {
    assert Parks(w, id);
    var k := w.all[id].key;
    DeleteDistinct(w.byKey, k);
    SetDistinct(w.byKey, k, Without(Get(w.byKey, k).value, id));
  }

  /** A timeout settles exactly its own waiter and never leaves an empty list behind. */
  lemma TimeOutOk(w: Waiters, id: nat)
    requires WaitersOk(w) && id < |w.all|
    ensures var r := TimeOut(w, id);
      && WaitersOk(r) && WaitersAdvance(w, r)
      && r.all == w.all[id := if w.all[id].Pending? then Resolved(None) else w.all[id]]
  {
    if w.all[id].Pending? {
      TimeOutMap(w, id);
      TimeOutLists(w, id);
      forall x: nat | x < |w.all| ensures Parks(TimeOut(w, id), x) { TimeOutParks(w, id, x); }
    }
  }
}
