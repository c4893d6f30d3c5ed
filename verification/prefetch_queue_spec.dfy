/**
 The page's prefetch queue: an array of URLs, the set and maps kept beside it, and the fetches that take
 URLs from it.  Each function below is one synchronous piece of the program on an arbitrary state.
 */
module PrefetchQueueSpec {
  import opened OrderedMap

  type Url = string

  const MAX_PREFETCH_QUEUE_SIZE := 240
  const PREFETCH_QUEUE_MAX_AGE_MS := 15_000
  const MAX_PREFETCH_WORKERS := 8

  /** `controllers`: the URLs whose fetch can be aborted; `generation`: the page's network generation. */
  datatype Queue = Queue(
    queue: seq<Url>, queued: set<Url>, queuedAt: map<Url, int>, urlGeneration: map<Url, int>,
    active: set<Url>, controllers: set<Url>, generation: int)

  const EMPTY := Queue([], {}, map[], map[], {}, {}, 0)

  predicate Expired(q: Queue, url: Url, now: int) {
    url in q.queuedAt && q.queuedAt[url] > 0 && now - q.queuedAt[url] > PREFETCH_QUEUE_MAX_AGE_MS
  }

  /** `isPrefetchUrlStale`; the program tests for a missing or zero time here. */
  predicate Stale(q: Queue, url: Url, now: int) {
    url in q.queuedAt && q.queuedAt[url] != 0 && now - q.queuedAt[url] > PREFETCH_QUEUE_MAX_AGE_MS
  }

  predicate IsCurrent(q: Queue, url: Url) {
    url in q.urlGeneration && q.urlGeneration[url] == q.generation
  }

  /** Everything kept about `url` beside the array. */
  function Forget(q: Queue, url: Url): Queue {
    q.(queued := q.queued - {url}, queuedAt := q.queuedAt - {url}, urlGeneration := q.urlGeneration - {url})
  }

  /** The compaction: `kept` is written so far, `rest` is still to be read. */
  function PurgeFrom(q: Queue, kept: seq<Url>, rest: seq<Url>, now: int): Queue
    decreases |rest|
  {
    if rest == [] then q.(queue := kept)
    else if Expired(q, rest[0], now) then PurgeFrom(Forget(q, rest[0]), kept, rest[1..], now)
    else PurgeFrom(q, kept + [rest[0]], rest[1..], now)
  }

  function Purge(q: Queue, now: int): Queue {
    PurgeFrom(q, [], q.queue, now)
  }

  /** Trimming drops the newest URLs; their recorded generations stay behind. */
  function Trim(q: Queue): Queue
    decreases |q.queue|
  {
    if |q.queue| <= MAX_PREFETCH_QUEUE_SIZE then q
    else
      var last := q.queue[|q.queue| - 1];
      Trim(q.(queue := q.queue[..|q.queue| - 1], queued := q.queued - {last}, queuedAt := q.queuedAt - {last}))
  }

  /** What one turn of the dequeue loop does with the URL it shifts off. */
  datatype Verdict = NotQueued | TooOld | OldGeneration | AlreadyActive | Taken

  function Judge(q: Queue, url: Url, now: int): Verdict {
    if url !in q.queued then NotQueued
    else if Stale(q, url, now) then TooOld
    else if !IsCurrent(q, url) then OldGeneration
    else if url in q.active then AlreadyActive
    else Taken
  }

  function Shifted(q: Queue, now: int): Queue
    requires q.queue != []
  {
    var url, r := q.queue[0], q.(queue := q.queue[1..]);
    match Judge(q, url, now)
    case NotQueued => r.(queuedAt := q.queuedAt - {url})
    case TooOld => Forget(r, url)
    case OldGeneration => Forget(r, url)
    case _ => r.(queued := q.queued - {url}, queuedAt := q.queuedAt - {url})
  }

  /** The dequeue loop: the state afterwards and the URL taken, if any. */
  function TakeFrom(q: Queue, now: int): (Queue, Option<Url>)
    decreases |q.queue|
  {
    if q.queue == [] then (q, None)
    else if Judge(q, q.queue[0], now) == Taken then (Shifted(q, now), Some(q.queue[0]))
    else TakeFrom(Shifted(q, now), now)
  }

  /** `dequeuePrefetchUrl`: the clock is read once for the purge and again in the loop. */
  function Dequeue(q: Queue, now: int, later: int): (Queue, Option<Url>) {
    TakeFrom(Purge(q, now), later)
  }

  /** `runPrefetchWorker` between two waits: what it takes becomes active at once. */
  function WorkerTake(q: Queue, now: int, later: int): (Queue, Option<Url>) {
    var (r, url) := Dequeue(Purge(q, now), now, later);
    (if url.Some? then r.(active := r.active + {url.value}) else r, url)
  }

  function Without(queue: seq<Url>, url: Url): seq<Url> {
    if queue == [] then [] else if queue[0] == url then queue[1..] else [queue[0]] + Without(queue[1..], url)
  }

  /** The player demands a queued URL: it leaves the queue and becomes active in the current generation. */
  function DemandStart(q: Queue, url: Url): Queue {
    var r := q.(queued := q.queued - {url}, queuedAt := q.queuedAt - {url}, queue := Without(q.queue, url));
    if url in q.active then r
    else r.(urlGeneration := q.urlGeneration[url := q.generation], active := q.active + {url})
  }

  // ---- Cancelling

  function Filter(queue: seq<Url>, keep: set<Url>): seq<Url> {
    if queue == [] then []
    else if queue[0] in keep then [queue[0]] + Filter(queue[1..], keep) else Filter(queue[1..], keep)
  }

  /** Wanted, coalesced or abort-locked URLs survive a cancellation. */
  function Keep(q: Queue, wanted: set<Url>, locked: set<Url>): set<Url> {
    wanted + (q.controllers * locked)
  }

  function Cancel(q: Queue, wanted: set<Url>, locked: set<Url>): Queue {
    var keep := Keep(q, wanted, locked);
    var gone := (q.controllers - keep) + (set u | u in q.queue && u !in keep) + (q.queued - keep);
    q.(queue := Filter(q.queue, keep), queued := q.queued * keep,
       queuedAt := q.queuedAt - ((set u | u in q.queue && u !in keep) + (q.queued - keep)),
       urlGeneration := q.urlGeneration - gone, controllers := q.controllers * keep)
  }

  // ---- A batch of segments

  datatype Batch = Batch(
    urls: seq<Url>, generation: Option<int>, append: bool, allowed: bool, wanted: set<Url>, locked: set<Url>)

  function Enqueue(q: Queue, url: Url, now: int): Queue {
    if url == "" || url in q.active || url in q.queued then q
    else q.(queued := q.queued + {url}, queuedAt := q.queuedAt[url := now],
            urlGeneration := q.urlGeneration[url := q.generation], queue := q.queue + [url])
  }

  function EnqueueAll(q: Queue, urls: seq<Url>, now: int): Queue
    decreases |urls|
  {
    if urls == [] then q else EnqueueAll(Enqueue(q, urls[0], now), urls[1..], now)
  }

  predicate Outdated(q: Queue, b: Batch) {
    b.generation.Some? && b.generation.value < q.generation
  }

  /** The state in which a batch starts queueing: a newer generation, or a plain batch, cancels the runway. */
  function Prepared(q: Queue, b: Batch): Queue {
    match b.generation
    case Some(g) =>
      if g > q.generation then Cancel(q.(generation := g), b.wanted, b.locked) else q
    case None =>
      if b.append then q else Cancel(q, b.wanted, b.locked)
  }

  function TakeBatch(q: Queue, b: Batch, now: int): Queue {
    if Outdated(q, b) then q
    else if !b.allowed then Prepared(q, b)
    else
      var r := EnqueueAll(Prepared(q, b), b.urls, now);
      if r.queue == Prepared(q, b).queue then r else Trim(r)
  }
}
