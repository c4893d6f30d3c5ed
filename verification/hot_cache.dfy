/** The page's hot byte cache, proved against the LRU policy and the waiter rules. */
module HotCache {
  import opened OrderedMap
  import opened HotCacheSpec
  import opened HotCacheProofs

  function AtLeastZero(n: int): nat {
    if n < 0 then 0 else n
  }

  class HotByteCache {
    var enabled: bool
    var entries: Entries
    var aliases: Aliases
    var totalBytes: nat
    var waitersByKey: Parked
    /** Every promise handed out by awaitHotBytes, in order. */
    var waiters: seq<Waiter>

    ghost function Stored(): Store
      reads this
    {
      Store(entries, aliases, totalBytes)
    }

    ghost function Waiting(): Waiters
      reads this
    {
      Waiters(waitersByKey, waiters)
    }

    ghost predicate Valid()
      reads this
    {
      StoreOk(Stored()) && WaitersOk(Waiting())
    }

    constructor ()
      ensures Valid() && enabled && entries == [] && aliases == [] && waiters == []
    {
      enabled, entries, aliases, totalBytes, waitersByKey, waiters := true, [], [], 0, [], [];
    }

    /** Forgets every alias that starts at or leads to `key`. */
    method DropAliasesOf(key: Key)
      requires Distinct(aliases)
      modifies `aliases
      ensures aliases == WithoutKeys(old(aliases), {key}) && Distinct(aliases)
    {
      var it := aliases;
      WithoutEnds(it, {key}, it);
      for i := 0 to |it|
        invariant HalfDropped(aliases, it, i, {key})
      {
        var drop := it[i].value == key || it[i].key == key;
        WithoutTurn(it, i, key, aliases, drop);
        if drop {
          aliases := Delete(aliases, it[i].key);
        }
      }
      WithoutEnds(it, {key}, aliases);
    }

    method DropEntry(key: Key)
      requires Distinct(entries) && Distinct(aliases) && totalBytes == Sum(entries)
      modifies `entries, `aliases, `totalBytes
      ensures Stored() == DropOne(old(Stored()), key)
      ensures Distinct(entries) && Distinct(aliases) && totalBytes == Sum(entries)
    {
      var at := IndexOf(entries, key);
      if at == |entries| { return; }
      SumDelete(entries, key);
      DeleteDistinct(entries, key);
      totalBytes := AtLeastZero(totalBytes - |entries[at].value.bytes|);
      entries := Delete(entries, key);
      DropAliasesOf(key);
    }

    method TouchEntry(key: Key)
      requires Distinct(entries)
      modifies `entries
      ensures Has(old(entries), key) ==> entries == Append(old(entries), key, Get(old(entries), key).value)
      ensures !Has(old(entries), key) ==> entries == old(entries)
    {
      match Get(entries, key)
      case None =>
      case Some(entry) =>
        entries := Delete(entries, key);
        DeleteDistinct(old(entries), key);
        GetNoneIff(entries, key);
        entries := Set(entries, key, entry);
    }

    method DropUnreachable()
      requires Distinct(aliases)
      modifies `aliases
      ensures aliases == Reaching(old(aliases), entries) && Distinct(aliases)
    {
      var it := aliases;
      ReachingEnds(it, entries);
      for i := 0 to |it|
        invariant ReachingUpTo(it, i, entries, aliases)
      {
        ReachingTurn(it, i, entries, aliases);
        if !Has(entries, it[i].value) {
          aliases := Delete(aliases, it[i].key);
        }
      }
    }

    method PruneAliasMap()
      requires Distinct(aliases)
      modifies `aliases
      ensures aliases == PruneAliases(old(aliases), entries) && Distinct(aliases)
    {
      DropUnreachable();
      while |aliases| > MAX_ALIASES
        invariant Newest(aliases) == PruneAliases(old(aliases), entries) && Distinct(aliases)
        decreases |aliases|
      {
        DropFirstPair(aliases);
        NewestOfTail(aliases);
        aliases := Delete(aliases, aliases[0].key);
      }
    }

    method DropExpired(now: int)
      requires Distinct(entries) && Distinct(aliases) && totalBytes == Sum(entries)
      modifies `entries, `aliases, `totalBytes
      ensures entries == Live(old(entries), now) && totalBytes == Sum(entries)
      ensures Distinct(entries) && Distinct(aliases) && KeySet(entries) <= KeySet(old(entries))
      ensures aliases == WithoutKeys(old(aliases), KeySet(old(entries)) - KeySet(entries))
    {
      var it := entries;
      WithoutNothing(aliases, KeySet(it) - KeySet(entries));
      for i := 0 to |it|
        invariant entries == Live(it[..i], now) + it[i..]
        invariant Distinct(entries) && Distinct(aliases) && totalBytes == Sum(entries)
        invariant KeySet(entries) <= KeySet(it)
        invariant aliases == WithoutKeys(old(aliases), KeySet(it) - KeySet(entries))
      {
        LiveTurn(it, i, now, entries);
        if Expired(it[i].value, now) {
          ExpireTurn(old(aliases), it, i, now, entries);
          assert Has(entries, it[i].key);
          DropEntry(it[i].key);
        }
      }
      assert it[..|it|] == it;
    }

    method TrimOldest()
      requires Distinct(entries) && Distinct(aliases) && totalBytes == Sum(entries)
      modifies `entries, `aliases, `totalBytes
      ensures entries == Trim(old(entries)) && totalBytes == Sum(entries)
      ensures Distinct(entries) && Distinct(aliases) && KeySet(entries) <= KeySet(old(entries))
      ensures aliases == WithoutKeys(old(aliases), KeySet(old(entries)) - KeySet(entries))
    {
      WithoutNothing(aliases, KeySet(entries) - KeySet(entries));
      while |entries| > MAX_ENTRIES || totalBytes > MAX_BYTES
        invariant Trim(entries) == Trim(old(entries))
        invariant Distinct(entries) && Distinct(aliases) && totalBytes == Sum(entries)
        invariant KeySet(entries) <= KeySet(old(entries))
        invariant aliases == WithoutKeys(old(aliases), KeySet(old(entries)) - KeySet(entries))
        decreases |entries|
      {
        TrimTurn(old(aliases), old(entries), entries);
        DropEntry(entries[0].key);
      }
    }

    method EvictOverflow(now: int)
      requires Distinct(entries) && Distinct(aliases) && totalBytes == Sum(entries)
      modifies `entries, `aliases, `totalBytes
      ensures Stored() == Evicted(old(Stored()), now) && Distinct(aliases)
    {
      DropExpired(now);
      label Trimming:
      TrimOldest();
      EvictCompose(old(aliases), old(entries), old@Trimming(entries), entries);
      PruneAliasMap();
    }

    method RegisterAlias(alias: Option<Key>, primary: Key)
      requires Distinct(aliases)
      modifies `aliases
      ensures aliases == Register(old(aliases), entries, alias, primary) && Distinct(aliases)
    {
      if alias == None || alias.value == primary { return; }
      SetDistinct(aliases, alias.value, primary);
      aliases := Set(aliases, alias.value, primary);
      PruneAliasMap();
    }

    method WakeWaiters(key: Key, payload: Option<Payload>)
      requires Has(waitersByKey, key) ==> Consistent(waiters, key, Get(waitersByKey, key).value)
      modifies `waitersByKey, `waiters
      ensures Waiting() == Wake(old(Waiting()), key, payload)
    {
      match Get(waitersByKey, key)
      case None =>
      case Some(ids) =>
        waitersByKey := Delete(waitersByKey, key);
        for i := 0 to |ids|
          invariant waiters == ResolveAll(old(waiters), ids[..i], payload)
          modifies `waiters
        {
          assert ids[..i + 1] == ids[..i] + [ids[i]];
          assert waiters[ids[i]] == Pending(key);
          waiters := waiters[ids[i] := Resolved(payload)];
        }
        assert ids[..|ids|] == ids;
    }

    /** Answers the waiters of `key` and of every alias that leads to it. */
    method WakeKeyAndAliases(key: Key, payload: Option<Payload>)
      requires WaitersOk(Waiting())
      modifies `waitersByKey, `waiters
      ensures Waiting() == WakeEach(old(Waiting()), [key] + AliasesOf(aliases, key), payload)
      ensures WaitersOk(Waiting())
    {
      ghost var w0 := Waiting();
      WakeOne(key, payload);
      ghost var woken := [key];
      WakeEachSnoc(w0, [], key, payload);
      assert [] + [key] == woken;
      for i := 0 to |aliases|
        invariant aliases == old(aliases)
        invariant woken == [key] + AliasesOf(aliases[..i], key)
        invariant WaitersOk(Waiting()) && Waiting() == WakeEach(w0, woken, payload)
      {
        AliasesOfNext(aliases, i, key);
        if aliases[i].value == key {
          WakeEachSnoc(w0, woken, aliases[i].key, payload);
          WakeOne(aliases[i].key, payload);
          woken := woken + [aliases[i].key];
        }
      }
      assert aliases[..|aliases|] == aliases;
    }

    method WakeOne(key: Key, payload: Option<Payload>)
      requires WaitersOk(Waiting())
      modifies `waitersByKey, `waiters
      ensures WaitersOk(Waiting()) && Waiting() == Wake(old(Waiting()), key, payload)
    {
      if Has(waitersByKey, key) { ListOf(Waiting(), key); }
      WakeOk(Waiting(), key, payload);
      WakeWaiters(key, payload);
    }

    method RenewExisting(key: Key, meta: Meta, now: int)
      requires Distinct(entries) && Has(entries, key)
      modifies `entries
      ensures entries == Append(old(entries), key, Refreshed(Get(old(entries), key).value, meta, now))
    {
      var existing := Get(entries, key).value;
      SetDistinct(entries, key, Refreshed(existing, meta, now));
      SetGet(entries, key, Refreshed(existing, meta, now), key);
      entries := Set(entries, key, Refreshed(existing, meta, now));
      assert Delete(entries, key) == Delete(old(entries), key);
      TouchEntry(key);
    }

    method ReplaceEntry(key: Key, entry: Entry)
      requires Distinct(entries) && totalBytes == Sum(entries)
      modifies `entries, `totalBytes
      ensures entries == Append(old(entries), key, entry) && totalBytes == Sum(entries) && Distinct(entries)
    {
      SumDelete(entries, key);
      SumAppend(entries, key, entry);
      AppendDistinct(entries, key, entry);
      match Get(entries, key) {
        case Some(existing) =>
          totalBytes := AtLeastZero(totalBytes - |existing.bytes|);
          DeleteDistinct(entries, key);
          entries := Delete(entries, key);
          GetNoneIff(entries, key);
        case None =>
      }
      entries := Set(entries, key, entry);
      totalBytes := totalBytes + |entry.bytes|;
    }

    method PutHotBytes(key: Option<Key>, bytes: Bytes, meta: Meta, now: int) returns (stored: bool)
      requires Valid()
      modifies this
      ensures Valid() && enabled == old(enabled)
      ensures stored == Accepts(enabled, key, bytes)
      ensures !stored ==> Stored() == old(Stored()) && Waiting() == old(Waiting())
      ensures stored ==>
        && Stored() == AfterPut(old(Stored()), key.value, bytes, meta, now)
        && Waiting() == WakeEach(old(Waiting()), [key.value] + AliasesOf(aliases, key.value),
                                 Some(Serve(PutEntry(old(Stored()), key.value, bytes, meta, now))))
    {
      stored := Accepts(enabled, key, bytes);
      if !stored { return; }
      PutAccepted(key.value, bytes, meta, now);
    }

    method RegisterBothAliases(meta: Meta, key: Key)
      requires Distinct(aliases)
      modifies `aliases
      ensures Stored() == RegisterBoth(old(Stored()), meta, key) && Distinct(aliases)
    {
      RegisterAlias(meta.alias, key);
      RegisterAlias(meta.pageAlias, key);
    }

    method PlaceRefreshed(key: Key, ghost bytes: Bytes, meta: Meta, now: int)
      requires StoreOk(Stored()) && Refreshes(Stored(), key, bytes, now)
      modifies `entries, `aliases
      ensures Stored() == AfterPut(old(Stored()), key, bytes, meta, now)
    {
      RefreshFits(Stored(), key, bytes, meta, now);
      RenewExisting(key, meta, now);
      RegisterBothAliases(meta, key);
    }

    method PlaceNew(key: Key, bytes: Bytes, meta: Meta, now: int)
      requires StoreOk(Stored()) && !Refreshes(Stored(), key, bytes, now)
      modifies `entries, `aliases, `totalBytes
      ensures Stored() == AfterPut(old(Stored()), key, bytes, meta, now)
    {
      ReplaceEntry(key, NewEntry(bytes, meta, now));
      RegisterBothAliases(meta, key);
      assert Stored() == Placed(old(Stored()), key, bytes, meta, now);
      AppendDistinct(old(entries), key, NewEntry(bytes, meta, now));
      EvictOverflow(now);
    }

    /** The storing half of a put: renew or replace, register the aliases, evict. */
    method PlaceEntry(key: Key, bytes: Bytes, meta: Meta, now: int)
      requires StoreOk(Stored()) && 0 < |bytes| <= MAX_ENTRY_BYTES
      modifies `entries, `aliases, `totalBytes
      ensures Stored() == AfterPut(old(Stored()), key, bytes, meta, now) && StoreOk(Stored())
    {
      PutKeepsStore(Stored(), key, bytes, meta, now);
      if Refreshes(Store(entries, aliases, totalBytes), key, bytes, now) {
        PlaceRefreshed(key, bytes, meta, now);
      } else {
        PlaceNew(key, bytes, meta, now);
      }
    }

    method PutAccepted(key: Key, bytes: Bytes, meta: Meta, now: int)
      requires Valid() && 0 < |bytes| <= MAX_ENTRY_BYTES
      modifies `entries, `aliases, `totalBytes, `waitersByKey, `waiters
      ensures StoreOk(Stored()) && WaitersOk(Waiting())
      ensures Stored() == AfterPut(old(Stored()), key, bytes, meta, now)
      ensures Waiting() == WakeEach(old(Waiting()), [key] + AliasesOf(aliases, key),
                                    Some(Serve(PutEntry(old(Stored()), key, bytes, meta, now))))
    {
      var entry := PutEntry(Store(entries, aliases, totalBytes), key, bytes, meta, now);
      PlaceEntry(key, bytes, meta, now);
      WakeKeyAndAliases(key, Some(Serve(entry)));
    }

    method GetHotBytes(key: Option<Key>, now: int) returns (payload: Option<Payload>)
      requires Valid()
      modifies `entries, `aliases, `totalBytes
      ensures Valid()
      ensures !enabled || key == None ==> payload == None && Stored() == old(Stored())
      ensures enabled && key.Some? ==>
        payload == GetResult(old(Stored()), key.value, now) && Stored() == AfterGet(old(Stored()), key.value, now)
    {
      if !enabled || key == None { return None; }
      GetKeepsStore(Stored(), key.value, now);
      payload := LookUp(key.value, now);
    }

    method LookUp(key: Key, now: int) returns (payload: Option<Payload>)
      requires StoreOk(Stored())
      modifies `entries, `aliases, `totalBytes
      ensures payload == GetResult(old(Stored()), key, now) && Stored() == AfterGet(old(Stored()), key, now)
    {
      var primary := Primary(entries, aliases, key);
      if !Has(entries, primary) { return None; }
      TouchOk(Stored(), primary);
      var entry := Get(entries, primary).value;
      TouchEntry(primary);
      if Expired(entry, now) {
        DropEntry(primary);
        return None;
      }
      return Some(Serve(entry));
    }

    method HasHotBytes(key: Option<Key>, now: int) returns (present: bool)
      requires Valid()
      modifies `entries, `aliases, `totalBytes
      ensures Valid()
      ensures present == (enabled && key.Some? && GetResult(old(Stored()), key.value, now).Some?)
      ensures Stored() == if enabled && key.Some? then AfterProbe(old(Stored()), key.value, now) else old(Stored())
    {
      if !enabled || key == None { return false; }
      var primary := Primary(entries, aliases, key.value);
      if !Has(entries, primary) { return false; }
      if Expired(Get(entries, primary).value, now) {
        DropOneOk(Stored(), primary);
        DropEntry(primary);
        return false;
      }
      return true;
    }

    method AliasHotBytes(from: Option<Key>, to: Option<Key>) returns (aliased: bool)
      requires Valid()
      modifies `aliases
      ensures Valid()
      ensures from.Some? && to.Some? ==> Stored() == AfterAlias(old(Stored()), from.value, to.value)
      ensures aliased <==> from.Some? && to.Some? && CanAlias(old(Stored()), from.value, to.value)
      ensures !aliased ==> Stored() == old(Stored())
    {
      if from == None || to == None || from == to { return false; }
      AliasKeepsStore(Stored(), from.value, to.value);
      if Has(entries, to.value) {
        RegisterAlias(from, to.value);
        return true;
      }
      if Has(entries, from.value) {
        RegisterAlias(to, from.value);
        return true;
      }
      match Get(aliases, from.value)
      case Some(primary) =>
        RegisterAlias(to, primary);
        return true;
      case None =>
        return false;
    }

    method ClearHotByteCache()
      requires Valid()
      modifies this
      ensures Valid() && enabled == old(enabled) && entries == [] && aliases == [] && waitersByKey == []
      ensures WaitersAdvance(old(Waiting()), Waiting()) && |waiters| == |old(waiters)|
      ensures forall id :: 0 <= id < |waiters| ==>
        waiters[id] == if old(waiters)[id].Pending? then Resolved(None) else old(waiters)[id]
    {
      entries, aliases, totalBytes := [], [], 0;
      while waitersByKey != []
        invariant WaitersOk(Waiting()) && WaitersAdvance(old(Waiting()), Waiting()) && |waiters| == |old(waiters)|
        invariant forall id :: 0 <= id < |waiters| ==>
          waiters[id] == old(waiters)[id] || (old(waiters)[id].Pending? && waiters[id] == Resolved(None))
        modifies `waitersByKey, `waiters
        decreases |waitersByKey|
      {
        WakeOk(Waiting(), waitersByKey[0].key, None);
        DropFirstPair(waitersByKey);
        WakeOne(waitersByKey[0].key, None);
      }
      forall id: nat | id < |waiters| ensures !waiters[id].Pending? { assert Parks(Waiting(), id); }
    }

    method PruneWaiterKeys(ghost key: Key)
      requires OpeningOk(Waiting(), key)
      modifies `waitersByKey, `waiters
      ensures Waiting() == PruneKeys(old(Waiting()))
    {
      while |waitersByKey| > MAX_WAITER_KEYS
        invariant OpeningOk(Waiting(), key) && PruneKeys(Waiting()) == PruneKeys(old(Waiting()))
        decreases |waitersByKey|
      {
        var oldest := waitersByKey[0].key;
        PruneOneOk(Waiting(), key);
        DropFirstPair(waitersByKey);
        OlderOfTail(waitersByKey);
        assert IndexOf(waitersByKey, oldest) == 0;
        WakeWaiters(oldest, None);
      }
    }

    method OpenKey(key: Key)
      requires WaitersOk(Waiting()) && !Has(waitersByKey, key)
      modifies `waitersByKey, `waiters
      ensures Waiting() == PruneKeys(old(Waiting()).(byKey := old(waitersByKey) + [Pair(key, [])]))
    {
      OpenOk(Waiting(), key);
      waitersByKey := waitersByKey + [Pair(key, [])];
      PruneWaiterKeys(key);
    }

    method JoinKey(key: Key)
      modifies `waitersByKey, `waiters
      ensures Waiting() == Join(old(Waiting()), key)
    {
      var ids := Get(waitersByKey, key).GetOr([]);
      if |ids| >= MAX_WAITERS_PER_KEY {
        waiters := waiters + [Resolved(None)];
      } else {
        waitersByKey := Set(waitersByKey, key, ids + [|waiters|]);
        waiters := waiters + [Pending(key)];
      }
    }

    method ParkWaiter(key: Key)
      requires WaitersOk(Waiting())
      modifies `waitersByKey, `waiters
      ensures Waiting() == Park(old(Waiting()), key)
      ensures WaitersOk(Waiting()) && WaitersAdvance(old(Waiting()), Waiting()) && |waiters| == |old(waiters)| + 1
      ensures ParkAnswers(old(Waiting()), key, Waiting())
    {
      ParkOk(Waiting(), key);
      if !Has(waitersByKey, key) {
        OpenKey(key);
      }
      JoinKey(key);
    }

    method AwaitHotBytes(key: Option<Key>, now: int) returns (id: nat)
      requires Valid()
      modifies this
      ensures Valid() && enabled == old(enabled) && id == |old(waiters)|
      ensures WaitersAdvance(old(Waiting()), Waiting()) && |waiters| == id + 1
      ensures enabled && key.Some? && GetResult(old(Stored()), key.value, now).None? ==>
        ParkAnswers(old(Waiting()), key.value, Waiting())
      ensures !enabled || key == None ==> Stored() == old(Stored()) && waiters == old(waiters) + [Resolved(None)]
      ensures enabled && key.Some? ==>
        && Stored() == AfterGet(old(Stored()), key.value, now)
        && match GetResult(old(Stored()), key.value, now)
           case Some(p) => Waiting() == old(Waiting()).(all := old(waiters) + [Resolved(Some(p))])
           case None => Waiting() == Park(old(Waiting()), key.value)
    {
      id := |waiters|;
      if !enabled || key == None {
        AnsweredOk(Waiting(), None);
        waiters := waiters + [Resolved(None)];
        return;
      }
      var existing := GetHotBytes(key, now);
      if existing.Some? {
        AnsweredOk(Waiting(), existing);
        waiters := waiters + [Resolved(existing)];
        return;
      }
      ParkWaiter(key.value);
    }

    /** The waiter's timer: `finish(null)`. */
    method WaiterTimedOut(id: nat)
      requires Valid() && id < |waiters|
      modifies `waitersByKey, `waiters
      ensures Valid() && Waiting() == TimeOut(old(Waiting()), id)
      ensures WaitersAdvance(old(Waiting()), Waiting()) && !waiters[id].Pending?
    {
      TimeOutOk(Waiting(), id);
      match waiters[id]
      case Resolved(_) =>
      case Pending(k) =>
        var ids := Without(Get(waitersByKey, k).GetOr([]), id);
        waitersByKey := if ids == [] then Delete(waitersByKey, k) else Set(waitersByKey, k, ids);
        waiters := waiters[id := Resolved(None)];
    }
  }
}
