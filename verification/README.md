# Verified model of AegisStream's in-memory protocols

AegisStream is a browser extension that prefetches and caches HLS segments.  This project models the
parts of it whose correctness does not depend on Chrome: the queue that writes chunks to the store, the
page's hot byte cache, the persistent chunk cache with its eviction, the cache-lookup ledger and the
waiters that collapse onto in-flight work, the playlist parser, the page's prefetch queue, the
anchor reconciliation lane, the quality-rung hysteresis, the segment ladder, the byte-range keys, the
Kalman filter and the payload fingerprint.

## How it is organised

Most components are a value-level specification (`*_spec.dfy`: what one step does to the state),
the proofs about every step and every run (`*_proofs.dfy`), and the class whose methods update the
fields in place and are each proved equal to their step.  Small components hold all three in one file.
`ordered_map.dfy` models the ECMAScript `Map` with its insertion order, `digits.dfy` numbers as text and
`url_text.dfy` the fragment of a URL.

| component | files |
|---|---|
| store write queue | `store_queue_spec`, `store_queue_proofs`, `store_queue` |
| hot byte cache | `hot_cache_spec`, `hot_cache_proofs`, `hot_cache` |
| persistent chunk cache, guard ring | `chunk_cache_spec`, `chunk_cache_proofs`, `chunk_cache`, `guard_ring` |
| lookup ledger, collapse waiters | `lookup_ledger`, `collapse_waiters` |
| playlist parser | `playlist_spec`, `playlist_proofs`, `playlist_parser` |
| page prefetch queue | `prefetch_queue_spec`, `prefetch_queue_proofs`, `prefetch_queue` |
| anchor reconciliation | `weighted_median`, `anchor_reconciler` |
| rung hysteresis | `rung_hysteresis` |
| segment ladder, range keys | `segment_ladder`, `range_keys`, `digits`, `url_text` |
| Kalman filter, fingerprint | `kalman_filter`, `crc32` |

`dafny verify dfyconfig.toml` checks everything.

## Where the code keeps less than it says

Each of these is stated as a lemma with the exact condition, and with a concrete failing input where the
failing family is not obvious.

- Per-key write order holds until `prunePerKeyTails` drops a chain whose last write is still pending.
  At every point of a run, and along every continuation from it that prunes no live chain, the writes of each
  key stay in order exactly when the run itself prunes no live chain (`OrderKeptIff`): after such a pruning
  the very next write of the pruned key may enter and overtake (`LivePruneBreaks`).  For every bound on the tails there is a run in which two writes of one key
  are active at once (`PrunedChainRunsTwice`), with the extension's own 512 after 514 submissions
  (`DefaultLimitsRunTwice`).
- Bridging a rotated URL aliases it to the probe that hit, not to the row that was served.  Every mapping
  still leads to a row exactly when no bridge writes a mapping to a probe that is no row
  (`BridgeNoDanglingIff`, `RunNoDanglingIff`); storing a URL and bridging it twice in a row writes one
  (`BridgeChainDangles`).
- A lookup ledger that is settled before it is opened ends without an outcome (`FinishedLookups`,
  `EarlySettleLosesOutcome`).  This is a property of the ledger object: every handler path opens first
  (`src/background/messaging/message-router.js:714`).
- The guard ring protects the row of a byte-range slice exactly when a windowed segment or a consumed
  in-flight URL is written as that row's range key (`RangeRowProtectedIff`).  A segment written as a fragment
  reference is stripped to its whole media URL, so the row of its slice is evicted (`SliceRowEvicted`).
- The age sweep of the reconcile lane consults neither guard ring nor consumers: of the 250 oldest rows it
  deletes those an hour old, wanted or not (`SweptIff`).
- `predictIndex` without an anchor cuts the prediction at the jump bound, because `Number(null)` is 0.  This
  is harmless exactly when the prediction without an anchor is at most that bound (`AbsentAnchorCuts`).
- A BYTERANGE line in front of a URI patches the segment before it when that segment is still bare, an
  omitted offset behind a URI counts from 0, and an omitted URI needs an earlier one.  Each concrete form of
  a segment reads back exactly when it avoids these cases (`ItemIff`, `AllFitIff`).
- The test for `#EXT-X-DISCONTINUITY` is a prefix test, so `#EXT-X-DISCONTINUITY-SEQUENCE` marks the segment
  behind it as discontinuous (`SequenceTagMarks`).  A playlist with the tag in its head parses as without it
  exactly when it has no segment or its first segment is marked anyway (`SequenceTagIff`,
  `SequenceTagMisread`).
- A same-size put into the hot cache within two seconds keeps the old bytes (`RefreshKeepsBytes`), so a
  lookup serves the bytes just put exactly when there was no such put before or its bytes are the same
  (`GetAfterPut`).
- The dwell of the anchor lane needs no evaluation in between: two counting turns 500 ms apart promote when
  nothing, or nothing but turns without a playlist, lies between them (`DwellPromotionIff`,
  `SilenceFillsDwell`, `SilentDwellRun`).  The lane itself skips a tab without segments
  (`src/background/prefetch/anchor/anchor-manager.js:142`), so there the gap is a missing evaluation.
- The warm-recovery gate keeps its samples when a recovery ends by its window or is called off.  A recovery
  takes three agreeing observations exactly when it begins without samples (`TakesThreeIff`); with some left
  over, what counts is the third in a row including them (`GateIff`), so that the first observation of a
  second recovery can get through (`LeftoverPasses`).
- A playlist update builds the tab's record anew and hands on neither the pending rung nor the samples
  (`src/background/prefetch/playlist/playlist-state.js:356-374`).  A rung switches exactly when it is confirmed
  since the last such update (`TabSwitchIff`); observations that come with updates alone never switch an active
  rung and never get through the gate (`UpdatesNeverSwitch`).
- The background and the page build the same media key for every absolute URL exactly when the configured
  tail length is 56 (`WorldsAgreeIff`).
- A range key with an empty stream id does not parse (`KeyRoundTrip`).

## Model

| member | source | states |
|---|---|---|
| StoreQueueProofs.Conservation | src/background/cache/store-queue.js:43-118 | every submitted write is in exactly one of waiting, queued, active, completed, rejected or dropped, and the counters count them |
| StoreQueueProofs.PumpStarts | src/background/cache/store-queue.js:43-76 | a pump starts the longest prefix of the queue that fits the free slots and touches nothing else |
| StoreQueueProofs.RunInv | src/background/cache/store-queue.js:43-172 | on every run: active and queued stay within the limits, all high entries come before all low ones and each class in arrival order, counters are exact, a free slot with a waiting write always has a pump pending, settled writes never change |
| StoreQueueProofs.ArrivalDropped | src/background/cache/store-queue.js:78-105 | an arrival is dropped exactly when the queue is full and it is not a high write facing a queued low one |
| StoreQueueProofs.QueuedDropped | src/background/cache/store-queue.js:84-100 | a queued write is dropped exactly when the queue is full, the arrival is high and the write is the oldest queued low one |
| StoreQueueProofs.SubmitKeyInvIff | src/background/cache/store-queue.js:120-172 | a keyed submission keeps the chain bookkeeping exactly when it does not prune a live chain: the step lemma behind the next rows |
| StoreQueueProofs.RunSerializesKeys | src/background/cache/store-queue.js:137-172 | on every run that prunes no live chain, a write leaves its chain only after every earlier write of its key settled, so at most one is queued or active and they enter in submission order |
| StoreQueueProofs.LivePruneBreaks | src/background/cache/store-queue.js:120-172 | from any reachable state a submission that prunes a live chain lets the next write of the pruned key enter while the earlier one is unsettled |
| StoreQueueProofs.OrderKeptIff | src/background/cache/store-queue.js:120-172 | at every point of a run all continuations without live pruning, and the next write of any key after them, keep the order of each key, exactly when the run itself prunes no live chain |
| StoreQueueProofs.PrunedChainRunsTwice | src/background/cache/store-queue.js:120-172 | for every bound on the tails and two or more slots, submitting one key more than the bound and then the first key again leads to two writes of that key active at once |
| StoreQueueProofs.DefaultLimitsRunTwice | src/background/cache/store-queue.js:6-8 | with 4 slots, 256 places and 512 tails that run has 516 events and both writes in service |
| StoreQueueProofs.WorkTerminates | src/background/cache/store-queue.js:43-118 | every admission, pump and completion lowers a finite measure |
| StoreQueueProofs.WorkIsEnabled | src/background/cache/store-queue.js:137-172 | while a write is unsettled some such step is enabled |
| StoreQueueProofs.Drains | src/background/cache/store-queue.js:137-172 | from every reachable state all writes can settle: a rejected or dropped write never blocks a later one of its key |
| StoreQueue.StoreWriteQueue.PumpWaitQueue | src/background/cache/store-queue.js:43-76 | the pump loop is the specified pump |
| StoreQueue.StoreWriteQueue.EnqueueUnbounded | src/background/cache/store-queue.js:78-118 | admission, eviction of a low write or refusal, as specified |
| StoreQueue.StoreWriteQueue.PrunePerKeyTails | src/background/cache/store-queue.js:120-135 | keeps the newest tails up to the bound |
| StoreQueue.StoreWriteQueue.EnqueueStoreWrite | src/background/cache/store-queue.js:137-172 | a submission is the submit step and keeps the invariant |
| StoreQueue.StoreWriteQueue.FinishWrite | src/background/cache/store-queue.js:48-75 | a completion is the finish step; the clamp of the active counter never acts |
| StoreQueue.StoreWriteQueue.RetireTail | src/background/cache/store-queue.js:160-171 | a settled write retires its chain only if nobody extended it |
| HotCacheProofs.TrimShortest | src/page/cache/hot-byte-cache.js:124-135 | trimming removes the shortest least-recently-used prefix that restores both bounds |
| HotCacheProofs.PutKeepsStore | src/page/cache/hot-byte-cache.js:179-249 | after every put the byte total is exact, there are at most 128 entries, 96 MiB and 256 aliases, and every alias reaches an entry in one hop |
| HotCacheProofs.PutIsLru | src/page/cache/hot-byte-cache.js:179-249 | a put refines a plain LRU list: its key moves to the recent end, expired entries and then the shortest prefix go, and the entry just put stays |
| HotCacheProofs.RefreshKeepsBytes | src/page/cache/hot-byte-cache.js:187-208 | a same-size put within two seconds keeps the old bytes, renews the entry and evicts nothing |
| HotCacheProofs.EvictedAliases | src/page/cache/hot-byte-cache.js:85-135 | eviction forgets exactly the aliases that start at or lead to an evicted entry |
| HotCacheProofs.GetKeepsStore | src/page/cache/hot-byte-cache.js:251-268 | a lookup keeps the invariant |
| HotCacheProofs.GetAfterPut | src/page/cache/hot-byte-cache.js:179-268 | within its lifetime the entry a put leaves under a key is what a lookup of the key serves; these are the bytes just put exactly when the put did not refresh or the old bytes were the same |
| HotCacheProofs.AliasServesPrimary | src/page/cache/hot-byte-cache.js:103-111 | a lookup of an alias serves what its primary holds |
| HotCacheProofs.AliasKeepsStore | src/page/cache/hot-byte-cache.js:283-301 | aliasing keeps the invariant |
| HotCacheProofs.WakeOk | src/page/cache/hot-byte-cache.js:152-171 | waking a key answers all its waiters and nobody else, once |
| HotCacheProofs.PutAnswersWaiters | src/page/cache/hot-byte-cache.js:152-171 | a successful put leaves no waiter pending on the key or any of its aliases |
| HotCacheProofs.ParkOk | src/page/cache/hot-byte-cache.js:322-382 | at most 64 keys of 32 waiters are parked; opening one key too many answers the waiters of the oldest key with nothing and nobody else, and a waiter that does not fit its key is answered, not lost |
| HotCacheProofs.TimeOutOk | src/page/cache/hot-byte-cache.js:353-381 | a timeout answers exactly its own waiter and leaves no empty list |
| HotCache.HotByteCache.DropEntry | src/page/cache/hot-byte-cache.js:85-93 | an entry goes with every alias that starts at or leads to it, and the byte total stays exact |
| HotCache.HotByteCache.EvictOverflow | src/page/cache/hot-byte-cache.js:124-135 | the eviction loops are the policy: expired entries, then the shortest LRU prefix |
| HotCache.HotByteCache.PutHotBytes | src/page/cache/hot-byte-cache.js:179-249 | stores exactly the accepted payloads, answers the waiters and keeps the invariant |
| HotCache.HotByteCache.GetHotBytes | src/page/cache/hot-byte-cache.js:251-268 | serves the specified payload and renews or drops the entry it found |
| HotCache.HotByteCache.HasHotBytes | src/page/cache/hot-byte-cache.js:270-281 | true exactly when a lookup would serve; it then changes nothing, and otherwise drops just the expired entry it found |
| HotCache.HotByteCache.AliasHotBytes | src/page/cache/hot-byte-cache.js:283-301 | aliases whichever side is not stored to the side that is, and answers true exactly when the keys differ and one of them is stored or the first is an alias already |
| HotCache.HotByteCache.ClearHotByteCache | src/page/cache/hot-byte-cache.js:303-320 | empties the cache and answers every pending waiter with nothing |
| HotCache.HotByteCache.AwaitHotBytes | src/page/cache/hot-byte-cache.js:339-382 | answers at once from the cache or parks within the bounds |
| ChunkCacheProofs.HitsStayOnPage | src/background/cache/db.js:878-970 | no hit on the direct, memory or alias path crosses pages when both scopes are known |
| ChunkCacheProofs.StoredIsFound | src/background/cache/db.js:658-970 | right after a store a lookup in a compatible scope serves the very row just stored |
| ChunkCacheProofs.StoredStaysFound | src/background/cache/db.js:400-970 | over any stores, lookups, bridges, purges and evictions that neither evict the row nor store or map one of the URL's keys, a lookup still serves the row stored, when no other key of the URL was a row and its first key no alias |
| ChunkCacheProofs.RemoveForgets | src/background/cache/db.js:552-560 | after an eviction no alias row and no index entry leads to a deleted row |
| ChunkCacheProofs.BridgeNoDanglingIff | src/background/cache/db.js:782-812 | bridging leaves every mapping on a row exactly when it does not write a mapping to a probe that is no row |
| ChunkCacheProofs.BridgeChainDangles | src/background/cache/db.js:782-812 | with every URL its own only key, storing one URL and bridging it to a second and that to a third leaves the third on no row |
| ChunkCacheProofs.RunNoDanglingIff | src/background/cache/db.js:400-431 | over a run every mapping always leads to a row exactly when no bridge of the run writes a mapping to a probe that is no row |
| ChunkCacheProofs.RunIndexOk | src/background/cache/db.js:19-42 | on every run the memory index holds each key once and never more than its bound |
| ChunkCacheProofs.PurgeClears | src/background/cache/db.js:856-876 | after a purge none of a purged URL's keys leads to another key |
| ChunkCacheProofs.PurgedLookupsStayOwn | src/background/cache/db.js:856-970 | after a purge, until a store or bridge maps its keys again, a lookup of the URL returns nothing or a row stored under one of its own keys |
| ChunkCacheProofs.SortSorts | src/background/cache/guard-ring.js:155-162 | the candidate order is a permutation by descending score, equal scores in creation order |
| ChunkCacheProofs.EvictionIsShortestPrefix | src/background/cache/db.js:514-547 | an eviction deletes a prefix of the unprotected rows, the shortest that meets both targets; it ends short of them only with the 120-row batch full or every surviving row protected |
| ChunkCacheProofs.TakeSparesGuarded | src/background/cache/db.js:525-541 | no protected row is ever deleted |
| ChunkCacheProofs.AgedIsPrefix | src/background/cache/db.js:606-632 | the age sweep deletes the longest prefix of the creation order that is old enough and fits the batch |
| ChunkCacheProofs.SweptIff | src/background/cache/db.js:606-632 | a row is swept exactly when it is at least an hour old and among the 250 oldest, protected or not |
| ChunkCache.PersistentCache.IndexCacheKeys | src/background/cache/db.js:19-34 | the in-place index update, trimmed to the newest entries |
| ChunkCache.PersistentCache.DropIndexedPrimaryKeys | src/background/cache/db.js:36-42 | removes exactly the entries that lead to the given rows |
| ChunkCache.PersistentCache.CacheChunk | src/background/cache/db.js:658-751 | stores the row under the primary key and maps the other keys to it; refused and duplicate writes as specified |
| ChunkCache.PersistentCache.ResolveCachedChunk | src/background/cache/db.js:888-970 | memory pass, then store pass with aliases |
| ChunkCache.PersistentCache.BridgeCacheAliases | src/background/cache/db.js:782-812 | the new URL's keys become aliases of the probe that found the old one |
| ChunkCache.PersistentCache.PurgeSegmentAliasMappings | src/background/cache/db.js:856-876 | the purge loops are the purge step and leave every URL purged |
| ChunkCache.PersistentCache.SelectVictims | src/background/cache/db.js:514-547 | the candidate loop picks the specified victims and the reclaimed bytes are exact |
| ChunkCache.PersistentCache.AgeSweep | src/background/cache/db.js:606-656 | the cursor loop sweeps the specified rows, and they go with their index entries and aliases |
| ChunkCache.PersistentCache.RunEvictionPass | src/background/cache/db.js:444-560 | a pass runs unless suppressed or within 20 s of the last one of its lane (hard and forced ones always); the reconcile lane sweeps by age first, and the victims go with their index entries and aliases |
| ChunkCache.PassMeetsTargets | src/background/cache/db.js:444-560 | the rows a pass leaves, by the store's own summary, meet both targets of the lane unless the batch is full or every row left is protected |
| GuardRing.CollectGuardRing | src/background/cache/guard-ring.js:41-93 | the protected set is exactly the keys of the segments inside an anchored window of some tab |
| GuardRing.CollectConsumers | src/background/cache/guard-ring.js:23-31 | exactly the keys of in-flight prefetches with a consumer |
| GuardRing.CollectTierA | src/background/cache/guard-ring.js:33-39 | exactly the union of the two |
| GuardRing.WindowedRowSurvives | src/background/cache/guard-ring.js:41-104 | the row of an ordinary segment inside an anchored window survives every soft or hard pass |
| GuardRing.RangeRowProtectedIff | src/background/cache/guard-ring.js:5-104 | the row of a byte-range slice is protected exactly when a windowed segment or a consumed in-flight URL is that row's range key, its fragment stripped |
| GuardRing.SliceRowEvicted | src/background/cache/guard-ring.js:5-104 | a windowed segment written as a fragment reference resolves to the slice's row, but while nothing wanted is written as a range key that row is unprotected and an eviction pass takes it |
| LookupLedger.FinishedLookups | src/background/messaging/message-router.js:606-665 | after any interleaving every finished lookup has sent one response and recorded one outcome if opened and none otherwise, except exactly when it was settled before it was opened; the three counters are exact |
| LookupLedger.UnansweredIsWatched | src/background/messaging/message-router.js:637-649 | an opened lookup without an answer has its watchdog armed, and the watchdog answers it |
| LookupLedger.OutcomesBalance | src/background/messaging/message-router.js:606-665 | on every run whose lookups are all finished, outcomes recorded plus settles before opening equal lookups opened |
| LookupLedger.EarlySettleLosesOutcome | src/background/messaging/message-router.js:606-665 | a concrete run that settles before it opens ends with an opened, answered lookup without an outcome |
| LookupLedger.CacheLookupLedger.OpenLookup | src/background/messaging/message-router.js:632-650 | opening arms the watchdog once and counts unless told not to |
| LookupLedger.CacheLookupLedger.SettleAs | src/background/messaging/message-router.js:619-629 | only the first settle records, and only when opened |
| LookupLedger.CacheLookupLedger.WatchdogFires | src/background/messaging/message-router.js:637-649 | the watchdog settles a miss and answers unless both are done |
| LookupLedger.CacheLookupLedger.FinalizeLookup | src/background/messaging/message-router.js:653-663 | a lookup left open is counted and recorded as a miss, and exactly one response has been sent |
| CollapseWaiters.SettleKeyOk | src/background/messaging/message-router.js:295-321 | a store, wire or rejection answers all waiters of the key once and nobody else |
| CollapseWaiters.TimeOutOk | src/background/messaging/message-router.js:500-512 | a timer answers exactly its own waiter, releases its consumer and leaves no empty list |
| CollapseWaiters.RunOkKeeps | src/background/messaging/message-router.js:486-576 | whichever of store, wire, rejection or timeout comes first, on every run each waiter is answered at most once, its consumer is released exactly then, and no list is empty |
| CollapseWaiters.PendingHasTimer | src/background/messaging/message-router.js:561-575 | an unanswered waiter always has a running timer that would answer it |
| CollapseWaiters.PendingResolvers.Register | src/background/messaging/message-router.js:509-512 | a waiter is added to its key's list |
| CollapseWaiters.PendingResolvers.SettlePending | src/background/messaging/message-router.js:295-321 | the loop over the resolvers is the settle step |
| CollapseWaiters.PendingResolvers.TimerFires | src/background/messaging/message-router.js:287-293 | unlisting in place, and dropping an emptied list |
| PlaylistProofs.ParseAligned | src/background/media/playlist-parser.js:72-320 | for every line sequence segments, durations and marks have one length and every range is proper |
| PlaylistProofs.OtherTagsIgnored | src/background/media/playlist-parser.js:225 | comments and unknown tags change nothing, wherever they stand |
| PlaylistProofs.ItemIff | src/background/media/playlist-parser.js:106-188 | in any state between segments, the lines of a segment in one of the concrete forms add exactly that segment if and only if the form fits |
| PlaylistProofs.AllFitIff | src/background/media/playlist-parser.js:106-188 | that all forms of a playlist fit is read off neighbouring segments: no BYTERANGE in front of a URI behind a bare segment, omitted offsets continue the previous range, an omitted URI repeats the previous one |
| PlaylistProofs.ParsePrint | src/background/media/playlist-parser.js:72-320 | parsing a printed playlist in any fitting mix of forms gives back its segments, durations, marks, media sequence and end mark |
| PlaylistProofs.FormsAgree | src/background/media/playlist-parser.js:135-256 | two readable printings of the same segments parse to the same playlist |
| PlaylistProofs.SequenceTagMarks | src/background/media/playlist-parser.js:148-152 | in any playlist, where no segment with an omitted URI is open, the DISCONTINUITY-SEQUENCE tag marks the next segment as discontinuous, if one follows, and does nothing else |
| PlaylistProofs.SequenceTagIff | src/background/media/playlist-parser.js:148-152 | a playlist with the tag before its segments parses as without it exactly when it has no segment or its first one is marked anyway |
| PlaylistProofs.SequenceTagMisread | src/background/media/playlist-parser.js:148-152 | a playlist of one segment that the tag makes discontinuous |
| PlaylistProofs.UniqueUrls | src/background/media/playlist-parser.js:263-275 | a master playlist lists exactly the URLs of its variants |
| PlaylistProofs.UniqueDistinct | src/background/media/playlist-parser.js:263-275 | it lists none twice |
| PlaylistProofs.UniqueFirst | src/background/media/playlist-parser.js:263-275 | each listed variant is the first one with its URL |
| PlaylistParser.HlsParser.PushSegment | src/background/media/playlist-parser.js:106-126 | pushing in place is the push step |
| PlaylistParser.HlsParser.FlushOmittedUriSegment | src/background/media/playlist-parser.js:129-133 | completes a segment whose URI was left out |
| PlaylistParser.HlsParser.ByteRangeLine | src/background/media/playlist-parser.js:163-189 | patches the bare segment before it or becomes pending |
| PlaylistParser.HlsParser.TakeLine | src/background/media/playlist-parser.js:135-252 | one turn of the line loop is the step for its kind of line |
| PlaylistParser.UniqueVariants | src/background/media/playlist-parser.js:264-275 | the loop with the seen set lists the first variant of each URL |
| PlaylistParser.TotalDuration | src/background/media/playlist-parser.js:258-261 | the sum of the positive durations |
| PlaylistParser.ParseHlsPlaylist | src/background/media/playlist-parser.js:72-320 | the whole parse, master and media results included |
| PrefetchQueueProofs.PurgeOk | src/page/prefetch/video.js:392-407 | a purge keeps exactly the unexpired URLs, in order, and forgets the others everywhere, their recorded generation included |
| PrefetchQueueProofs.TrimOk | src/page/prefetch/video.js:409-416 | a trim keeps the oldest 240 URLs |
| PrefetchQueueProofs.WorkerTakeOk | src/page/prefetch/video.js:418-444 | a worker takes the first URL that is neither too old nor of another generation; it carries the current generation and nobody owned it |
| PrefetchQueueProofs.DemandOk | src/page/prefetch/video.js:699-726 | a demanded URL leaves the queue and starts in the current generation |
| PrefetchQueueProofs.CancelOk | src/page/prefetch/video.js:157-212 | a cancellation leaves exactly the wanted URLs, in order, and no abortable fetch that is neither wanted nor locked |
| PrefetchQueueProofs.BatchOk | src/page/prefetch/video.js:895-973 | a batch appends exactly its new URLs, cut to 240, each of the current generation; an outdated one changes nothing |
| PrefetchQueueProofs.NextWorkers | src/page/prefetch/video.js:758-811 | the counter of busy workers is exact, its clamp at zero never acts, and it never exceeds 8 |
| PrefetchQueueProofs.RunKeepsSystem | src/page/prefetch/video.js:157-973 | on every interleaving the queue has no duplicates, equals the queued set, is disjoint from the active set and within 240, every queued URL has a generation, no URL is owned by two tasks, and only a running fetch can be aborted |
| PrefetchQueueProofs.StartsCurrent | src/page/prefetch/video.js:699-811 | on every run a task starts only on a queued URL of the current generation that no task owns |
| PrefetchQueue.PagePrefetchQueue.PurgeStale | src/page/prefetch/video.js:392-407 | the in-place compaction is the purge |
| PrefetchQueue.PagePrefetchQueue.TrimQueue | src/page/prefetch/video.js:409-416 | the pop loop is the trim |
| PrefetchQueue.PagePrefetchQueue.DequeueUrl | src/page/prefetch/video.js:418-444 | the shift loop is the dequeue, branch by branch |
| PrefetchQueue.PagePrefetchQueue.TakeWork | src/page/prefetch/video.js:770-779 | purge, dequeue and activation of a worker turn |
| PrefetchQueue.PagePrefetchQueue.DemandStartQueued | src/page/prefetch/video.js:711-722 | removal from the queue and activation on demand |
| PrefetchQueue.PagePrefetchQueue.CancelRunway | src/page/prefetch/video.js:157-202 | the three cancelling loops together |
| PrefetchQueue.PagePrefetchQueue.PrefetchSegments | src/page/prefetch/video.js:895-973 | the batch step; exactly the batch's active URLs are answered as in flight |
| WeightedMedian.MedianIsMedian | src/background/prefetch/anchor/anchor-reconciler.js:95-106 | the result is the least signal index with half of the weight at or below it |
| WeightedMedian.MedianMinimises | src/background/prefetch/anchor/anchor-reconciler.js:95-106 | no other index has a smaller weighted sum of distances to the signals |
| WeightedMedian.MedianOrderIndependent | src/background/prefetch/anchor/anchor-reconciler.js:95-106 | the order of the signals does not matter |
| WeightedMedian.MedianResists | src/background/prefetch/anchor/anchor-reconciler.js:95-106 | a group with less than half the weight cannot pull the median outside the range of the others |
| WeightedMedian.WeightedMedianIndex | src/background/prefetch/anchor/anchor-reconciler.js:95-106 | the loop over the sorted copy returns that median, or nothing for no signals |
| AnchorReconciler.PromotionIsSafe | src/background/prefetch/anchor/anchor-reconciler.js:138-169 | a promotion over an anchor is more than 3 away, never backward during churn or scrub, and never from above 10 to 2 or below |
| AnchorReconciler.DwellPromotionIff | src/background/prefetch/anchor/anchor-reconciler.js:122-192 | on every run, a dwell promotion happens exactly when the turn counts, a counting turn at least 500 ms earlier began a stretch in which every turn with a playlist counted and none promoted, and no promotion lies in the last 800 ms |
| AnchorReconciler.SilenceFillsDwell | src/background/prefetch/anchor/anchor-reconciler.js:122-186 | two counting turns 500 ms apart promote with a turn without a playlist, or none at all, between them |
| AnchorReconciler.SilentDwellRun | src/background/prefetch/anchor/anchor-reconciler.js:122-186 | a concrete run with anchor 100 and prediction 110 promotes with only silence in the 500 ms |
| AnchorReconciler.NoAnchorPromotionIff | src/background/prefetch/anchor/anchor-reconciler.js:132-135 | any other promotion happens exactly when there is a playlist and a consensus but no anchor |
| AnchorReconciler.TabState.CollectSignals | src/background/prefetch/anchor/anchor-reconciler.js:27-93 | the fresh signals with their weights and exclusions |
| AnchorReconciler.TabState.ResolveTarget | src/background/prefetch/anchor/anchor-reconciler.js:109-115 | the median of the signals, unless only the anchor speaks |
| AnchorReconciler.TabState.Evaluate | src/background/prefetch/anchor/anchor-reconciler.js:122-186 | decision and dwell clock, branch by branch |
| AnchorReconciler.TabState.MarkPromoted | src/background/prefetch/anchor/anchor-reconciler.js:188-192 | sets the cooldown clock and stops the dwell clock |
| AnchorReconciler.TabState.Reconcile | src/background/prefetch/anchor/anchor-manager.js:142-153 | evaluates and marks a promotion: one turn of the run |
| RungHysteresis.SwitchIff | src/background/prefetch/lanes/speculative-prefetch.js:420-475 | on every run from any rung, switch time and pending state, an active rung changes exactly with the 2nd (upgrade) or 3rd (downgrade) counted observation of the new label, with no switch, no observation of the active label and no counted one of a third label between them |
| RungHysteresis.DowngradeHeld | src/background/prefetch/lanes/speculative-prefetch.js:446-452 | a downgrade never follows another switch within 8 s, be it one of the run or the last one before it |
| RungHysteresis.GateIff | src/background/prefetch/lanes/speculative-prefetch.js:402-418 | while a tab recovers an observation gets through exactly when it is the third in a row for its label, counting the samples an earlier recovery left behind |
| RungHysteresis.TakesThreeIff | src/background/prefetch/lanes/speculative-prefetch.js:402-418 | a recovery takes three agreeing observations of its own exactly when it begins without samples of an earlier one |
| RungHysteresis.LeftoverPasses | src/background/state/runtime-state.js:250-254 | a concrete run of one record: a recovery sees a label twice and is called off, and the first observation of the next one gets through |
| RungHysteresis.TabSwitchIff | src/background/prefetch/lanes/speculative-prefetch.js:398-475 | on every run of observations, recoveries armed or called off, updates and restored snapshots, an observation switches the active rung exactly when it passes the gate, counts, and confirms since the record was last built or restored |
| RungHysteresis.UpdatesNeverSwitch | src/background/prefetch/playlist/playlist-state.js:356-374 | observations that each come with an update of the record never switch an active rung and never pass the gate |
| RungHysteresis.TabRung.Rebuilt | src/background/prefetch/playlist/playlist-state.js:356-374 | the record an update builds keeps the recovery but neither the pending rung nor the samples |
| RungHysteresis.TabRung.ArmRecovery | src/background/prefetch/scheduler/page-delegate.js:65-73 | arming a recovery keeps the samples |
| RungHysteresis.TabRung.CallOffRecovery | src/background/messaging/message-router.js:126-128 | so does calling it off |
| RungHysteresis.TabRung.PassGate | src/background/prefetch/lanes/speculative-prefetch.js:402-418 | the gate as the code keeps its samples |
| RungHysteresis.TabRung.TakeObservation | src/background/prefetch/lanes/speculative-prefetch.js:420-475 | one observation, branch by branch |
| RungHysteresis.TabRung.ApplyMatrix | src/background/prefetch/lanes/speculative-prefetch.js:398-475 | an observation is one step of the tab: gate, then rung; no label changes nothing |
| SegmentLadder.BuildParsed | src/background/media/segment-sequence.js:47-99 | a URL that parses is the synthesized URL at its own index |
| SegmentLadder.ParseBuiltIff | src/background/media/segment-sequence.js:47-99 | a synthesized URL parses back to the same pattern and its index exactly when the counter fits the width and is a safe integer |
| SegmentLadder.BuildUrls | src/background/media/segment-sequence.js:91-99 | the array of synthesized URLs |
| SegmentLadder.HasConsecutiveRun | src/background/media/segment-sequence.js:115-131 | true exactly when some m observed counters each lie at most the gap above the one before |
| SegmentLadder.LadderTrackers.Prune | src/background/media/segment-sequence.js:104-109 | forgets exactly the counters not observed within the time to live |
| SegmentLadder.LadderTrackers.Note | src/background/media/segment-sequence.js:176-215 | a tab adopts a ladder once, exactly when its recent counters of one pattern form a run and the playlist is taken |
| RangeKeys.SliceRoundTrip | src/shared/media-cache-key.js:38-49 | a printed slice reads back |
| RangeKeys.RefRoundTrip | src/shared/media-cache-key.js:20-36 | a fragment reference gives back its URL and slice |
| RangeKeys.KeyRoundTrip | src/shared/media-cache-key.js:38-73 | a range key gives back its stream id, pipes and all, and its slice, exactly when the stream id is not empty |
| RangeKeys.KeyInjective | src/shared/media-cache-key.js:55-73 | different streams or slices never share a range key |
| RangeKeys.HeaderRoundTrip | src/shared/media-cache-key.js:85-96 | a single-range header gives back its slice |
| RangeKeys.RoutesAgree | src/shared/media-cache-key.js:20-96 | reference, header and builder give one slice of a URL the same key in either world |
| RangeKeys.SlicesNeverCollide | src/shared/media-cache-key.js:55-73 | two slices of one URL never share a key |
| RangeKeys.WorldsAgreeIff | src/page/media/media-cache-key-page.js:42-105 | both worlds build the same media key for every absolute URL exactly when the configured tail length is 56 |
| RangeKeys.WorldsResolveAlike | src/page/media/media-cache-key-page.js:107-138 | with 56 configured every route gives the same range key in both worlds |
| RangeKeys.NormalizeIdempotent | src/shared/media-cache-key.js:75-83 | normalising twice is normalising once, and keeps the slice |
| KalmanFilter.PredictedIsPropagation | src/page/playback/kalman-segment-filter.js:48-54 | the in-place prediction is the matrix propagation F P Ft + Q |
| KalmanFilter.PredictedPositive | src/page/playback/kalman-segment-filter.js:48-57 | prediction keeps the covariance symmetric positive definite for every time step and the innovation variance above R |
| KalmanFilter.CorrectedDet | src/page/playback/kalman-segment-filter.js:63-74 | one measurement scales the determinant by exactly R / S |
| KalmanFilter.CorrectedPositive | src/page/playback/kalman-segment-filter.js:63-74 | a measurement keeps the covariance positive definite, with a position gain strictly between 0 and 1 and a position variance below R |
| KalmanFilter.CorrectedIsJoseph | src/page/playback/kalman-segment-filter.js:69-74 | the in-place subtraction equals the Joseph form |
| KalmanFilter.RunPositive | src/page/playback/kalman-segment-filter.js:22-77 | after every run of measurements, whatever their values and times, and resets, the covariance is symmetric positive definite, the position variance is the initial one or below R, and the next innovation variance is above R |
| KalmanFilter.PredictInRange | src/page/playback/kalman-segment-filter.js:103-134 | the predicted index lies inside the manifest |
| KalmanFilter.PredictNearAnchor | src/page/playback/kalman-segment-filter.js:115-133 | with an anchor inside the manifest the prediction is at most the jump bound away from it |
| KalmanFilter.AbsentAnchorCuts | src/page/playback/kalman-segment-filter.js:103-134 | without an anchor the prediction is the free one cut at the jump bound, so the two agree exactly when the free one is at most the bound |
| KalmanFilter.KalmanSegmentFilter.Reset | src/page/playback/kalman-segment-filter.js:22-30 | starts again at the measurement, or 0, at rest, with the initial covariance and no last time stamp |
| KalmanFilter.KalmanSegmentFilter.Update | src/page/playback/kalman-segment-filter.js:32-77 | prediction and correction of position, velocity and covariance; the branch for a non-positive innovation variance is dead |
| Crc32.BurstDetected | src/background/media/serializers.js:45-76 | two messages that differ only inside a window of 32 bits have different checksums |
| Crc32.TableEntry | src/background/media/serializers.js:48-52 | the inner loop shifts the index through eight places |
| Crc32.BuildTable | src/background/media/serializers.js:45-55 | every entry of the table is its index shifted through eight places |
| Crc32.AddByte | src/background/media/serializers.js:73-75 | one turn by table feeds the eight bits of the byte one at a time |
| Crc32.Checksum | src/background/media/serializers.js:69-76 | the table loop computes the bit-at-a-time CRC-32 of every byte string |
| Crc32.Crc32Fingerprint | src/background/media/serializers.js:57-88 | the fingerprint is that checksum of the first min(length, 65536) bytes, with both lengths; nothing for no bytes |
| Crc32.HexRoundTrip | src/background/media/serializers.js:76 | the printed checksum has eight hexadecimal digits and reads back |
| Crc32.FingerprintUnique | src/background/media/serializers.js:69-88 | a payload has one fingerprint |
| Crc32.BurstChangesFingerprint | src/background/media/serializers.js:57-88 | payloads that differ only inside four consecutive bytes of the sample have different fingerprints |
| Crc32.BeyondSample | src/background/media/serializers.js:57-67 | a difference beyond the sample is not seen |

## Left out

- KalmanFilter.KalmanSegmentFilter.Update: works over the reals, so it says nothing about rounding; time stamps are numbers, and the adaptive look-ahead of `predictIndex` is an arbitrary look-ahead here.
- RangeKeys.RefRoundTrip: offsets are exact integers; above 2^53 the program's numbers are not, and white space is space, tab, line feed and carriage return only.
- SegmentLadder.BuildParsed: the URL arrives split at its last slash and its query; the splitting is not modelled.
- PlaylistProofs.ParsePrint: lines are already classified and URLs already absolute, so the text of the tags is not modelled; durations are reals; DASH parsing and `normalizeSegments` are not modelled.
- PrefetchQueueProofs.RunKeepsSystem: a task's fetch, store and failure reports are one phase each, the coalescer starts its own fetch, the purges of one worker turn read one clock, and a worker that dies on an abort error is not followed further.
- PrefetchQueue.PagePrefetchQueue.DemandStartQueued: takes the queued URL that matches the player's key; finding it is not modelled.
- HotCache.HotByteCache.PutHotBytes: takes resolved keys; URL resolution, byte cloning, detached buffers and statistics are not modelled, and one operation reads one clock.
- ChunkCache.PersistentCache.RunEvictionPass: the in-progress flag, rescheduling, failures of the sweep and the key registry are not modelled; the whole pass reads one clock, the targets are integer percentages of the policy, and each operation is atomic.
- ChunkCache.PersistentCache.CacheChunk: the fingerprint deduplication is a parameter, and storage failures, timeouts and the pass-through valve are not modelled.
- CollapseWaiters.RunOkKeeps: the counts of in-flight writes, the wire cache and the lookups before and after the wait are not modelled.
- LookupLedger.FinishedLookups: the handler between open and settle is arbitrary, and `sendResponse` always succeeds.
- AnchorReconciler.DwellPromotionIff: the run stays within one playlist episode (a new one resets both clocks), starts at a clock of at least 800 ms, and signal weights are natural numbers.
- RungHysteresis.SwitchIff: the matrix is fixed over the run; what makes a recovery be armed, called off or restored is not modelled.
- Background cache registry, telemetry, logging, site policy, popup and stream injection: host code around the modelled parts.
- Speculation arbitration and confidence powers: floating-point scores that only rank candidates; the eviction score is an arbitrary function here.
- The page fetch coalescer's consumer counts: entries are looked up by key across expiry, so exact counting is not a property of the code.
