/** The guard ring: which cache keys eviction must not touch, and why the anchored window survives it. */
module GuardRing {
  import opened OrderedMap
  import opened UrlText
  import opened ChunkCacheSpec
  import opened ChunkCacheProofs
  import RangeKeys

  const PAST_SEGMENTS := 2
  const FUTURE_SEGMENTS := 12
  const CHURN_PAST_SEGMENTS := 5
  const CHURN_FUTURE_SEGMENTS := 24
  const ANCHOR_SIGNAL_FRESH_MS := 3_000

  /** One tab's playlist state, as far as the ring reads it. */
  datatype Tab = Tab(
    segments: seq<string>,
    anchor: Option<int>,
    seekChurn: bool,
    teleportActive: bool,
    variantSwitch: bool,
    scrubTrain: bool,
    teleportTarget: Option<int>,
    predicted: Option<int>,
    predictedAt: int,
    hitRateBoost: nat)

  predicate Unstable(t: Tab) {
    t.seekChurn || t.teleportActive || t.variantSwitch || t.scrubTrain
  }

  function Past(t: Tab): nat {
    (if Unstable(t) then CHURN_PAST_SEGMENTS else PAST_SEGMENTS) + (t.hitRateBoost + 1) / 2
  }

  function Future(t: Tab): nat {
    (if Unstable(t) then CHURN_FUTURE_SEGMENTS else FUTURE_SEGMENTS) + t.hitRateBoost
  }

  /** A stale prediction never replaces the live anchor; only an active teleport does. */
  function Anchors(t: Tab, now: int): seq<int>
    requires t.anchor.Some?
  {
    if t.teleportActive && t.teleportTarget.Some? then [t.teleportTarget.value]
    else if t.scrubTrain && t.predicted.Some? && now - t.predictedAt < ANCHOR_SIGNAL_FRESH_MS then
      [t.anchor.value, t.predicted.value]
    else [t.anchor.value]
  }

  ghost function UrlKeys(V: Variants, url: string): set<Key> {
    var n := StripHash(url);
    if n == "" then {} else {n} + set k | k in V(n)
  }

  /** Segment `i` of the tab lies in the window around one of its anchors. */
  ghost predicate InWindow(t: Tab, now: int, i: int) {
    && t.anchor.Some? && 0 <= i < |t.segments|
    && exists a :: a in Anchors(t, now) && a - Past(t) <= i <= a + Future(t)
  }

  /** A key the ring owes to some windowed segment of some tab. */
  ghost predicate InRing(V: Variants, tabs: seq<Tab>, now: int, k: Key) {
    exists j, i :: 0 <= j < |tabs| && InWindow(tabs[j], now, i) && k in UrlKeys(V, tabs[j].segments[i])
  }

  predicate IsProtected(V: Variants, url: string, keys: set<Key>) {
    var n := StripHash(url);
    n != "" && (n in keys || exists i :: 0 <= i < |V(n)| && V(n)[i] in keys)
  }

  function Guard(V: Variants, keys: set<Key>): Key -> bool {
    u => IsProtected(V, u, keys)
  }

  method AddUrl(V: Variants, url: string, keys: set<Key>) returns (r: set<Key>)
    ensures r == keys + UrlKeys(V, url)
  {
    r := keys;
    var n := StripHash(url);
    if n == "" { return; }
    r := r + {n};
    var variants := V(n);
    for i := 0 to |variants|
      invariant r == keys + {n} + set k | k in variants[..i]
    {
      r := r + {variants[i]};
    }
    assert variants[..|variants|] == variants;
  }

  ghost predicate AnchorKey(V: Variants, t: Tab, a: int, k: Key) {
    exists i :: 0 <= i < |t.segments| && a - Past(t) <= i <= a + Future(t) && k in UrlKeys(V, t.segments[i])
  }

  method AddWindow(V: Variants, t: Tab, a: int, keys: set<Key>) returns (r: set<Key>)
    ensures forall k :: k in r <==> k in keys || AnchorKey(V, t, a, k)
  {
    r := keys;
    var start := if a - Past(t) > 0 then a - Past(t) else 0;
    var end := if a + Future(t) < |t.segments| then a + Future(t) else |t.segments| - 1;
    var index := start;
    while index <= end
      invariant start <= index
      invariant forall k :: k in r <==>
        k in keys || exists i :: start <= i < index && i <= end && k in UrlKeys(V, t.segments[i])
      decreases end - index
    {
      r := AddUrl(V, t.segments[index], r);
      index := index + 1;
    }
  }

  ghost predicate TabKey(V: Variants, t: Tab, now: int, k: Key) {
    exists i :: InWindow(t, now, i) && k in UrlKeys(V, t.segments[i])
  }

  method AddTab(V: Variants, t: Tab, now: int, keys: set<Key>) returns (r: set<Key>)
    ensures forall k :: k in r <==> k in keys || TabKey(V, t, now, k)
  {
    r := keys;
    if t.segments == [] || t.anchor == None { return; }
    var anchors := Anchors(t, now);
    for j := 0 to |anchors|
      invariant forall k :: k in r <==> k in keys || exists x :: 0 <= x < j && AnchorKey(V, t, anchors[x], k)
    {
      r := AddWindow(V, t, anchors[j], r);
    }
    forall k ensures k in r <==> k in keys || TabKey(V, t, now, k) {
      if x :| 0 <= x < |anchors| && AnchorKey(V, t, anchors[x], k) {
        var i :| 0 <= i < |t.segments| && anchors[x] - Past(t) <= i <= anchors[x] + Future(t)
          && k in UrlKeys(V, t.segments[i]);
        assert anchors[x] in anchors && InWindow(t, now, i);
      }
      if i :| InWindow(t, now, i) && k in UrlKeys(V, t.segments[i]) {
        var a :| a in anchors && a - Past(t) <= i <= a + Future(t);
        assert AnchorKey(V, t, a, k);
      }
    }
  }

  /** collectGuardRingProtectedUrls: exactly the keys of the windowed segments of all tabs. */
  method CollectGuardRing(V: Variants, tabs: seq<Tab>, now: int) returns (r: set<Key>)
    ensures forall k :: k in r <==> InRing(V, tabs, now, k)
  {
    r := {};
    for j := 0 to |tabs|
      invariant forall k :: k in r <==> exists x :: 0 <= x < j && TabKey(V, tabs[x], now, k)
    {
      r := AddTab(V, tabs[j], now, r);
    }
    forall k ensures k in r <==> InRing(V, tabs, now, k) {
      if x :| 0 <= x < |tabs| && TabKey(V, tabs[x], now, k) {
        var i :| InWindow(tabs[x], now, i) && k in UrlKeys(V, tabs[x].segments[i]);
        assert InRing(V, tabs, now, k);
      }
      if x, i :| 0 <= x < |tabs| && InWindow(tabs[x], now, i) && k in UrlKeys(V, tabs[x].segments[i]) {
        assert TabKey(V, tabs[x], now, k);
      }
    }
  }

  datatype Inflight = Inflight(url: string, consumers: int)

  ghost predicate Consumed(V: Variants, inflight: seq<Inflight>, k: Key) {
    exists j :: 0 <= j < |inflight| && inflight[j].consumers > 0 && k in UrlKeys(V, inflight[j].url)
  }

  method CollectConsumers(V: Variants, inflight: seq<Inflight>) returns (r: set<Key>)
    ensures forall k :: k in r <==> Consumed(V, inflight, k)
  {
    r := {};
    for j := 0 to |inflight|
      invariant forall k :: k in r <==>
        exists x :: 0 <= x < j && inflight[x].consumers > 0 && k in UrlKeys(V, inflight[x].url)
    {
      if inflight[j].consumers > 0 {
        r := AddUrl(V, inflight[j].url, r);
      }
    }
  }

  method CollectTierA(V: Variants, tabs: seq<Tab>, inflight: seq<Inflight>, now: int) returns (r: set<Key>)
    ensures forall k :: k in r <==> InRing(V, tabs, now, k) || Consumed(V, inflight, k)
  {
    var ring := CollectGuardRing(V, tabs, now);
    var consumers := CollectConsumers(V, inflight);
    r := ring + consumers;
  }

  // ---- Survival

  /**
   The row of an ordinary segment inside an anchored window survives every soft or hard pass, whatever
   the candidate scores, the policy and the other rows are.
   */
  lemma WindowedRowSurvives(V: Variants, s: State, tabs: seq<Tab>, now: int, tierA: set<Key>, j: nat, i: int,
                            order: seq<Item>, overEntries: int, overBytes: int, batch: nat)
    requires ValidVariants(V) && j < |tabs| && InWindow(tabs[j], now, i)
    requires forall k :: InRing(V, tabs, now, k) ==> k in tierA
    requires StripHash(tabs[j].segments[i]) != "" && V(StripHash(tabs[j].segments[i])) != []
    requires V(StripHash(tabs[j].segments[i]))[0] in s.chunks
    ensures var victims := Take(order, Guard(V, tierA), overEntries, overBytes, batch);
      V(StripHash(tabs[j].segments[i]))[0] in Remove(s, set k | k in Urls(victims)).chunks
  {
    var keys := V(StripHash(tabs[j].segments[i]));
    var row := keys[0];
    assert row in UrlKeys(V, tabs[j].segments[i]) && InRing(V, tabs, now, row);
    StripClean(row);
    var victims := Take(order, Guard(V, tierA), overEntries, overBytes, batch);
    TakeSparesGuarded(order, Guard(V, tierA), overEntries, overBytes, batch);
    assert forall x :: 0 <= x < |victims| ==> victims[x] in victims;
  }

  /** Exactly when a row is protected: it or one of its keys belongs to a windowed segment or a consumed URL. */
  lemma ProtectedIff(V: Variants, tabs: seq<Tab>, inflight: seq<Inflight>, now: int, tierA: set<Key>, row: Key)
    requires ValidVariants(V) && row != "" && '#' !in row
    requires forall k :: k in tierA <==> InRing(V, tabs, now, k) || Consumed(V, inflight, k)
    ensures Guard(V, tierA)(row) <==>
      exists k :: k in UrlKeys(V, row) && (InRing(V, tabs, now, k) || Consumed(V, inflight, k))
  {
    StripClean(row);
    if Guard(V, tierA)(row) {
      if row in tierA {
        assert row in UrlKeys(V, row);
      } else {
        var i :| 0 <= i < |V(row)| && V(row)[i] in tierA;
        assert V(row)[i] in UrlKeys(V, row);
      }
    }
    if k :| k in UrlKeys(V, row) && k in tierA {
      if k != row {
        assert k in V(row);
      }
    }
  }

  // ---- Byte-range slices

  /** A range key is its own only key, and no other URL has a range key among its keys. */
  ghost predicate RangeVariants(V: Variants) {
    && (forall u :: RangeKeys.IsRangeKey(u) && '#' !in u ==> V(u) == [u])
    && forall u, k :: !RangeKeys.IsRangeKey(u) && k in V(u) ==> !RangeKeys.IsRangeKey(k)
  }

  /** `url` is a segment inside the window of some tab, or an in-flight URL with a consumer. */
  ghost predicate Wanted(tabs: seq<Tab>, inflight: seq<Inflight>, now: int, url: string) {
    || (exists j, i :: 0 <= j < |tabs| && InWindow(tabs[j], now, i) && tabs[j].segments[i] == url)
    || (exists j :: 0 <= j < |inflight| && inflight[j].consumers > 0 && inflight[j].url == url)
  }

  lemma RangeKeyOf(V: Variants, url: string, row: Key)
    requires RangeVariants(V) && RangeKeys.IsRangeKey(row)
    ensures row in UrlKeys(V, url) <==> StripHash(url) == row
  {
    var n := StripHash(url);
    if RangeKeys.IsRangeKey(n) { assert V(n) == [n]; }
  }

  lemma WantedRangeKey(V: Variants, tabs: seq<Tab>, inflight: seq<Inflight>, now: int, row: Key)
    requires RangeVariants(V) && RangeKeys.IsRangeKey(row)
    ensures InRing(V, tabs, now, row) || Consumed(V, inflight, row) <==>
      exists u :: Wanted(tabs, inflight, now, u) && StripHash(u) == row
  {
    if InRing(V, tabs, now, row) {
      var j, i :| 0 <= j < |tabs| && InWindow(tabs[j], now, i) && row in UrlKeys(V, tabs[j].segments[i]);
      RangeKeyOf(V, tabs[j].segments[i], row);
      assert Wanted(tabs, inflight, now, tabs[j].segments[i]);
    }
    if Consumed(V, inflight, row) {
      var j :| 0 <= j < |inflight| && inflight[j].consumers > 0 && row in UrlKeys(V, inflight[j].url);
      RangeKeyOf(V, inflight[j].url, row);
      assert Wanted(tabs, inflight, now, inflight[j].url);
    }
    if exists u :: Wanted(tabs, inflight, now, u) && StripHash(u) == row {
      var u :| Wanted(tabs, inflight, now, u) && StripHash(u) == row;
      RangeKeyOf(V, u, row);
    }
  }

  /**
   The row of a byte-range slice is protected exactly when its range key itself is a windowed segment or
   a consumed in-flight URL; a playlist that names the slice by its fragment reference does not count.
   */
  lemma RangeRowProtectedIff(V: Variants, tabs: seq<Tab>, inflight: seq<Inflight>, now: int, tierA: set<Key>, row: Key)
    requires ValidVariants(V) && RangeVariants(V) && RangeKeys.IsRangeKey(row) && '#' !in row
    requires forall k :: k in tierA <==> InRing(V, tabs, now, k) || Consumed(V, inflight, k)
    ensures Guard(V, tierA)(row) <==> exists u :: Wanted(tabs, inflight, now, u) && StripHash(u) == row
  {
    ProtectedIff(V, tabs, inflight, now, tierA, row);
    StripClean(row);
    assert UrlKeys(V, row) == {row};
    WantedRangeKey(V, tabs, inflight, now, row);
  }

  lemma NothingWanted(V: Variants, tabs: seq<Tab>, inflight: seq<Inflight>, now: int, tierA: set<Key>, row: Key)
    requires ValidVariants(V) && RangeVariants(V) && RangeKeys.IsRangeKey(row) && '#' !in row
    requires forall u :: Wanted(tabs, inflight, now, u) ==> !RangeKeys.IsRangeKey(StripHash(u))
    requires forall k :: k in tierA <==> InRing(V, tabs, now, k) || Consumed(V, inflight, k)
    ensures !Guard(V, tierA)(row)
  {
    RangeRowProtectedIff(V, tabs, inflight, now, tierA, row);
  }

  lemma TakesUnguarded(guarded: Key -> bool, row: Key, n: nat)
    requires !guarded(row)
    ensures Take([Item(row, n)], guarded, 1, 0, CACHE_MAX_EVICTION_BATCH) == [Item(row, n)]
  {
    assert [Item(row, n)][1..] == [];
  }

  /**
   The family this leaves out: while no windowed segment or consumed URL is written as a range key, the
   row of a slice in the window is unprotected, and an eviction pass over it deletes it.
   */
  lemma SliceRowEvicted(V: Variants, w: RangeKeys.World, r: RangeKeys.Reader, base: string, s: RangeKeys.Slice,
                        tabs: seq<Tab>, inflight: seq<Inflight>, now: int, tierA: set<Key>, j: nat, i: int, n: nat)
    requires ValidVariants(V) && RangeVariants(V)
    requires base != "" && '#' !in base && !RangeKeys.IsRangeKey(base) && RangeKeys.Proper(s)
    requires '#' !in RangeKeys.StreamId(w, r, base)
    requires j < |tabs| && InWindow(tabs[j], now, i) && Some(tabs[j].segments[i]) == RangeKeys.FormatRef(base, s)
    requires forall u :: Wanted(tabs, inflight, now, u) ==> !RangeKeys.IsRangeKey(StripHash(u))
    requires forall k :: k in tierA <==> InRing(V, tabs, now, k) || Consumed(V, inflight, k)
    ensures var row := RangeKeys.BuildKey(w, r, base, s);
      && row.Some? && RangeKeys.ResolveKey(w, r, tabs[j].segments[i], None) == row
      && !Guard(V, tierA)(row.value)
      && Take([Item(row.value, n)], Guard(V, tierA), 1, 0, CACHE_MAX_EVICTION_BATCH) == [Item(row.value, n)]
  {
    var row := RangeKeys.RangeKey(RangeKeys.StreamId(w, r, base), s);
    RangeKeys.RoutesAgree(w, r, base, s, None);
    RangeKeys.KeyHashFree(RangeKeys.StreamId(w, r, base), s);
    NothingWanted(V, tabs, inflight, now, tierA, row);
    TakesUnguarded(Guard(V, tierA), row, n);
  }
}
