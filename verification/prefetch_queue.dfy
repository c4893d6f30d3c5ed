/** The prefetch queue as it runs: the page's module variables, updated in place by each operation. */
module PrefetchQueue {
  import opened OrderedMap
  import opened PrefetchQueueSpec
  import opened PrefetchQueueProofs

  // ---- Loops read left to right, specified by functions that recurse from either end

  lemma {:induction false} FilterSnoc(s: seq<Url>, url: Url, keep: set<Url>)
    ensures Filter(s + [url], keep) == Filter(s, keep) + if url in keep then [url] else []
  {
    if s == [] {
      assert s + [url] == [url];
      assert [url][1..] == [];
    } else {
      assert (s + [url])[1..] == s[1..] + [url];
      FilterSnoc(s[1..], url, keep);
    }
  }

  /** The distinct non-empty URLs of a batch, in order. */
  function DistinctOf(urls: seq<Url>): seq<Url> {
    if urls == [] then []
    else
      var front, last := DistinctOf(urls[..|urls| - 1]), urls[|urls| - 1];
      if last == "" || last in front then front else front + [last]
  }

  function NotOwned(q: Queue, urls: seq<Url>): seq<Url> {
    if urls == [] then []
    else
      var front, last := NotOwned(q, urls[..|urls| - 1]), urls[|urls| - 1];
      if last in q.active || last in q.queued then front else front + [last]
  }

  lemma {:induction false} NotOwnedMembers(q: Queue, urls: seq<Url>, url: Url)
    ensures url in NotOwned(q, urls) <==> url in urls && url !in q.active && url !in q.queued
  {
    if urls != [] {
      assert urls == urls[..|urls| - 1] + [urls[|urls| - 1]];
      NotOwnedMembers(q, urls[..|urls| - 1], url);
    }
  }

  lemma {:induction false} NewsInTwoSteps(q: Queue, urls: seq<Url>)
    ensures NotOwned(q, DistinctOf(urls)) == News(q, urls)
  {
    if urls != [] {
      var front, last := urls[..|urls| - 1], urls[|urls| - 1];
      NewsInTwoSteps(q, front);
      NotOwnedMembers(q, DistinctOf(front), last);
      if last != "" && last !in DistinctOf(front) {
        assert DistinctOf(urls)[..|DistinctOf(front)|] == DistinctOf(front);
      }
    }
  }

  /** Queueing without looking. */
  function Add(q: Queue, url: Url, now: int): Queue {
    q.(queued := q.queued + {url}, queuedAt := q.queuedAt[url := now],
       urlGeneration := q.urlGeneration[url := q.generation], queue := q.queue + [url])
  }

  function AddAll(q: Queue, urls: seq<Url>, now: int): Queue {
    if urls == [] then q else Add(AddAll(q, urls[..|urls| - 1], now), urls[|urls| - 1], now)
  }

  lemma {:induction false} AddAllSets(q: Queue, urls: seq<Url>, now: int)
    ensures var r := AddAll(q, urls, now);
      && r.active == q.active && r.queue == q.queue + urls
      && forall u :: u in r.queued <==> u in q.queued || u in urls
  {
    if urls != [] {
      var front, last := urls[..|urls| - 1], urls[|urls| - 1];
      assert urls == front + [last];
      AddAllSets(q, front, now);
      assert q.queue + urls == q.queue + front + [last];
    } else {
      assert q.queue + [] == q.queue;
    }
  }

  lemma {:induction false} EnqueueAllIsAddAll(q: Queue, urls: seq<Url>, now: int)
    ensures EnqueueAll(q, urls, now) == AddAll(q, News(q, urls), now)
    decreases |urls|
  {
    if urls != [] {
      var front, last := urls[..|urls| - 1], urls[|urls| - 1];
      assert urls == front + [last];
      EnqueueAllIsAddAll(q, front, now);
      EnqueueAllSnoc(q, front, last, now);
      AddAllSets(q, News(q, front), now);
      if News(q, urls) != News(q, front) { assert News(q, urls)[..|News(q, front)|] == News(q, front); }
    }
  }

  lemma MapMinus(m: map<Url, int>, gone: set<Url>, url: Url)
    ensures m - gone - {url} == m - (gone + {url})
  {
  }

  lemma SetMinus(s: set<Url>, gone: set<Url>, url: Url)
    ensures s - gone - {url} == s - (gone + {url})
  {
  }

  class PagePrefetchQueue {
    var prefetchQueue: seq<Url>
    var queuedPrefetches: set<Url>
    var queuedAt: map<Url, int>
    var urlGeneration: map<Url, int>
    var activePrefetches: set<Url>
    var abortControllers: set<Url>
    var networkGeneration: int

    constructor ()
      ensures Snapshot() == EMPTY
    {
      prefetchQueue, queuedPrefetches, queuedAt, urlGeneration := [], {}, map[], map[];
      activePrefetches, abortControllers, networkGeneration := {}, {}, 0;
    }

    ghost function Snapshot(): Queue
      reads this
    {
      Queue(prefetchQueue, queuedPrefetches, queuedAt, urlGeneration, activePrefetches, abortControllers,
        networkGeneration)
    }

    method ForgetUrl(url: Url)
      modifies `queuedPrefetches, `queuedAt, `urlGeneration
      ensures Snapshot() == Forget(old(Snapshot()), url)
      ensures queuedPrefetches == old(queuedPrefetches) - {url} && queuedAt == old(queuedAt) - {url}
      ensures urlGeneration == old(urlGeneration) - {url}
    {
      queuedAt := queuedAt - {url};
      queuedPrefetches := queuedPrefetches - {url};
      urlGeneration := urlGeneration - {url};
    }

    /** Compacts the array in place, behind the reading position. */
    method PurgeStale(now: int)
      modifies `prefetchQueue, `queuedPrefetches, `queuedAt, `urlGeneration
      ensures Snapshot() == Purge(old(Snapshot()), now)
    {
      ghost var before := Snapshot();
      var write := 0;
      for read := 0 to |prefetchQueue|
        invariant write <= read && |prefetchQueue| == |before.queue|
        invariant prefetchQueue[read..] == before.queue[read..]
        invariant PurgeFrom(Snapshot().(queue := before.queue), prefetchQueue[..write], before.queue[read..],
          now) == Purge(before, now)
        invariant abortControllers == before.controllers && activePrefetches == before.active &&
          networkGeneration == before.generation
      {
        var url := prefetchQueue[read];
        assert before.queue[read..][0] == url && before.queue[read..][1..] == before.queue[read + 1..];
        assert prefetchQueue[read + 1..] == prefetchQueue[read..][1..];
        if url in queuedAt && queuedAt[url] > 0 && now - queuedAt[url] > PREFETCH_QUEUE_MAX_AGE_MS {
          ForgetUrl(url);
        } else {
          ghost var kept := prefetchQueue[..write];
          prefetchQueue := prefetchQueue[write := url];
          write := write + 1;
          assert prefetchQueue[..write] == kept + [url];
        }
      }
      prefetchQueue := prefetchQueue[..write];
    }

    method TrimQueue()
      modifies `prefetchQueue, `queuedPrefetches, `queuedAt
      ensures Snapshot() == Trim(old(Snapshot()))
    {
      while |prefetchQueue| > MAX_PREFETCH_QUEUE_SIZE
        invariant Trim(Snapshot()) == Trim(old(Snapshot()))
        decreases |prefetchQueue|
      {
        var dropped := prefetchQueue[|prefetchQueue| - 1];
        prefetchQueue := prefetchQueue[..|prefetchQueue| - 1];
        queuedPrefetches := queuedPrefetches - {dropped};
        queuedAt := queuedAt - {dropped};
      }
    }

    /** One turn of the dequeue loop; `url` is what it returns, if it does. */
    method Shift(now: int) returns (url: Option<Url>)
      requires |prefetchQueue| > 0
      modifies `prefetchQueue, `queuedPrefetches, `queuedAt, `urlGeneration
      ensures Snapshot() == Shifted(old(Snapshot()), now)
      ensures url == if Judge(old(Snapshot()), old(prefetchQueue[0]), now) ==
        Taken then Some(old(prefetchQueue[0])) else None
    {
      var first := prefetchQueue[0];
      prefetchQueue := prefetchQueue[1..];
      if first !in queuedPrefetches {
        queuedAt := queuedAt - {first};
        return None;
      }
      if first in queuedAt && queuedAt[first] != 0 && now - queuedAt[first] > PREFETCH_QUEUE_MAX_AGE_MS {
        ForgetUrl(first);
        return None;
      }
      if !(first in urlGeneration && urlGeneration[first] == networkGeneration) {
        ForgetUrl(first);
        return None;
      }
      queuedPrefetches := queuedPrefetches - {first};
      queuedAt := queuedAt - {first};
      if first in activePrefetches { return None; }
      return Some(first);
    }

    method DequeueUrl(now: int, later: int) returns (url: Option<Url>)
      modifies `prefetchQueue, `queuedPrefetches, `queuedAt, `urlGeneration
      ensures (Snapshot(), url) == Dequeue(old(Snapshot()), now, later)
    {
      PurgeStale(now);
      while |prefetchQueue| > 0
        invariant TakeFrom(Snapshot(), later) == Dequeue(old(Snapshot()), now, later)
        decreases |prefetchQueue|
      {
        url := Shift(later);
        if url.Some? { return; }
      }
      url := None;
    }

    /** One turn of a worker, up to the fetch. */
    method TakeWork(now: int, later: int) returns (url: Option<Url>)
      modifies `prefetchQueue, `queuedPrefetches, `queuedAt, `urlGeneration, `activePrefetches
      ensures (Snapshot(), url) == WorkerTake(old(Snapshot()), now, later)
    {
      PurgeStale(now);
      url := DequeueUrl(now, later);
      if url.Some? { activePrefetches := activePrefetches + {url.value}; }
    }

    method DemandStartQueued(url: Url)
      modifies `prefetchQueue, `queuedPrefetches, `queuedAt, `urlGeneration, `activePrefetches
      ensures Snapshot() == DemandStart(old(Snapshot()), url)
    {
      queuedPrefetches := queuedPrefetches - {url};
      queuedAt := queuedAt - {url};
      RemoveFirst(url);
      if url in activePrefetches { return; }
      urlGeneration := urlGeneration[url := networkGeneration];
      activePrefetches := activePrefetches + {url};
    }

    /** `indexOf` and `splice` */
    method RemoveFirst(url: Url)
      modifies `prefetchQueue
      ensures prefetchQueue == Without(old(prefetchQueue), url)
    {
      var i := 0;
      while i < |prefetchQueue| && prefetchQueue[i] != url
        invariant i <= |prefetchQueue| && prefetchQueue == old(prefetchQueue)
        invariant Without(prefetchQueue, url) == prefetchQueue[..i] + Without(prefetchQueue[i..], url)
      {
        assert prefetchQueue[i..][1..] == prefetchQueue[i + 1..];
        i := i + 1;
      }
      if i < |prefetchQueue| {
        assert prefetchQueue[i..][1..] == prefetchQueue[i + 1..];
        prefetchQueue := prefetchQueue[..i] + prefetchQueue[i + 1..];
      } else {
        assert prefetchQueue[..i] + [] == prefetchQueue;
      }
    }

    /** Aborts what is neither wanted nor abort-locked; returns what is kept. */
    method AbortFetches(wanted: set<Url>, locked: set<Url>) returns (keep: set<Url>)
      modifies `abortControllers, `urlGeneration
      ensures keep == Keep(old(Snapshot()), wanted, locked)
      ensures abortControllers == old(abortControllers) * keep
      ensures urlGeneration == old(urlGeneration) - (old(abortControllers) - keep)
    {
      keep := wanted;
      var todo := abortControllers;
      ghost var done: set<Url>, gone: set<Url> := {}, {};
      while todo != {}
        invariant todo !! done && todo + done == old(abortControllers)
        invariant forall u :: u in keep <==> u in wanted || (u in done && u in locked)
        invariant forall u :: u in gone <==> u in done && u !in wanted && u !in locked
        invariant abortControllers == old(abortControllers) - gone && urlGeneration == old(urlGeneration) - gone
        decreases |todo|
      {
        var url :| url in todo;
        todo := todo - {url};
        done := done + {url};
        if url !in keep && url in locked { keep := keep + {url}; }
        if url !in keep {
          MapMinus(old(urlGeneration), gone, url);
          SetMinus(old(abortControllers), gone, url);
          StopFetch(url);
          gone := gone + {url};
        }
      }
      assert done == old(abortControllers);
      assert gone == done - keep;
    }

    method StopFetch(url: Url)
      modifies `abortControllers, `urlGeneration
      ensures abortControllers == old(abortControllers) - {url} && urlGeneration == old(urlGeneration) - {url}
    {
      abortControllers := abortControllers - {url};
      urlGeneration := urlGeneration - {url};
    }

    /** Rebuilds the array from a snapshot of it. */
    method DropQueue(keep: set<Url>)
      modifies `prefetchQueue, `queuedPrefetches, `queuedAt, `urlGeneration
      ensures var gone := set u | u in old(prefetchQueue) && u !in keep;
        && prefetchQueue == Filter(old(prefetchQueue), keep)
        && queuedPrefetches == old(queuedPrefetches) - gone
        && queuedAt == old(queuedAt) - gone
        && urlGeneration == old(urlGeneration) - gone
    {
      var snapshot := prefetchQueue;
      ghost var gone: set<Url> := {};
      prefetchQueue := [];
      for i := 0 to |snapshot|
        invariant gone == set u | u in snapshot[..i] && u !in keep
        invariant prefetchQueue == Filter(snapshot[..i], keep)
        invariant queuedPrefetches == old(queuedPrefetches) - gone
        invariant queuedAt == old(queuedAt) - gone
        invariant urlGeneration == old(urlGeneration) - gone
      {
        var url := snapshot[i];
        assert snapshot[..i + 1] == snapshot[..i] + [url];
        FilterSnoc(snapshot[..i], url, keep);
        if url in keep {
          prefetchQueue := prefetchQueue + [url];
        } else {
          MapMinus(old(queuedAt), gone, url);
          MapMinus(old(urlGeneration), gone, url);
          SetMinus(old(queuedPrefetches), gone, url);
          ForgetUrl(url);
          gone := gone + {url};
        }
      }
      assert snapshot[..|snapshot|] == snapshot;
    }

    /** URLs queued but missing from the array. */
    method DropLeftovers(keep: set<Url>)
      modifies `queuedPrefetches, `queuedAt, `urlGeneration
      ensures queuedPrefetches == old(queuedPrefetches) * keep
      ensures queuedAt == old(queuedAt) - (old(queuedPrefetches) - keep)
      ensures urlGeneration == old(urlGeneration) - (old(queuedPrefetches) - keep)
    {
      var todo := queuedPrefetches - keep;
      ghost var all, gone: set<Url> := todo, {};
      while todo != {}
        invariant todo !! gone && todo + gone == all
        invariant queuedPrefetches == old(queuedPrefetches) - gone
        invariant queuedAt == old(queuedAt) - gone && urlGeneration == old(urlGeneration) - gone
        decreases |todo|
      {
        var url :| url in todo;
        todo := todo - {url};
        MapMinus(old(queuedAt), gone, url);
        MapMinus(old(urlGeneration), gone, url);
        SetMinus(old(queuedPrefetches), gone, url);
        ForgetUrl(url);
        gone := gone + {url};
      }
      assert gone == all;
      assert queuedPrefetches == old(queuedPrefetches) * keep;
    }

    method CancelRunway(generation: Option<int>, wanted: set<Url>, locked: set<Url>)
      modifies `prefetchQueue, `queuedPrefetches, `queuedAt, `urlGeneration, `abortControllers, `networkGeneration
      ensures Snapshot() == Cancel(old(Snapshot()).(generation := generation.GetOr(old(networkGeneration))), wanted,
        locked)
    {
      if generation.Some? { networkGeneration := generation.value; }
      ghost var before := Snapshot();
      var keep := AbortFetches(wanted, locked);
      DropQueue(keep);
      DropLeftovers(keep);
      ghost var gone := set u | u in before.queue && u !in keep;
      assert queuedPrefetches == before.queued * keep;
      assert queuedAt == before.queuedAt - (gone + (before.queued - keep));
      assert urlGeneration == before.urlGeneration - ((before.controllers - keep) + gone + (before.queued - keep));
    }

    /** `unique` */
    static method DistinctUrls(urls: seq<Url>) returns (unique: seq<Url>)
      ensures unique == DistinctOf(urls)
    {
      unique := [];
      var seen: set<Url> := {};
      for i := 0 to |urls|
        invariant unique == DistinctOf(urls[..i])
        invariant forall u :: u in seen <==> u in unique
      {
        assert urls[..i + 1][..i] == urls[..i];
        if urls[i] != "" && urls[i] !in seen {
          seen := seen + {urls[i]};
          unique := unique + [urls[i]];
        }
      }
      assert urls[..|urls|] == urls;
    }

    /** Splits the batch into what is already in flight and what to queue. */
    method Split(unique: seq<Url>) returns (inflight: seq<Url>, toQueue: seq<Url>)
      ensures toQueue == NotOwned(Snapshot(), unique)
      ensures forall u :: u in inflight <==> u in unique && u in activePrefetches
    {
      inflight, toQueue := [], [];
      for i := 0 to |unique|
        invariant toQueue == NotOwned(Snapshot(), unique[..i])
        invariant forall u :: u in inflight <==> u in unique[..i] && u in activePrefetches
      {
        assert unique[..i + 1][..i] == unique[..i];
        assert unique[..i + 1] == unique[..i] + [unique[i]];
        if unique[i] in activePrefetches {
          inflight := inflight + [unique[i]];
        } else if unique[i] !in queuedPrefetches {
          toQueue := toQueue + [unique[i]];
        }
      }
      assert unique[..|unique|] == unique;
    }

    method QueueAll(urls: seq<Url>, now: int)
      modifies `prefetchQueue, `queuedPrefetches, `queuedAt, `urlGeneration
      ensures Snapshot() == AddAll(old(Snapshot()), urls, now)
    {
      for i := 0 to |urls|
        invariant Snapshot() == AddAll(old(Snapshot()), urls[..i], now)
      {
        assert urls[..i + 1][..i] == urls[..i];
        queuedPrefetches := queuedPrefetches + {urls[i]};
        queuedAt := queuedAt[urls[i] := now];
        urlGeneration := urlGeneration[urls[i] := networkGeneration];
        prefetchQueue := prefetchQueue + [urls[i]];
      }
      assert urls[..|urls|] == urls;
    }

    method Prepare(b: Batch)
      requires !Outdated(Snapshot(), b)
      modifies `prefetchQueue, `queuedPrefetches, `queuedAt, `urlGeneration, `abortControllers, `networkGeneration
      ensures Snapshot() == Prepared(old(Snapshot()), b)
    {
      if b.generation.Some? {
        var advanced := b.generation.value > networkGeneration;
        networkGeneration := b.generation.value;
        if advanced { CancelRunway(b.generation, b.wanted, b.locked); }
      } else if !b.append {
        CancelRunway(None, b.wanted, b.locked);
      }
    }

    /** `prefetchSegmentsFromPage`; the URLs in flight already are answered at once. */
    method PrefetchSegments(b: Batch, now: int) returns (inflight: seq<Url>)
      modifies `prefetchQueue, `queuedPrefetches, `queuedAt, `urlGeneration, `abortControllers, `networkGeneration
      ensures Snapshot() == TakeBatch(old(Snapshot()), b, now)
      ensures !Outdated(old(Snapshot()), b) && b.allowed ==>
        forall u :: u in inflight <==> u in DistinctOf(b.urls) && u in activePrefetches
    {
      if b.generation.Some? && b.generation.value < networkGeneration { return []; }
      Prepare(b);
      var unique := DistinctUrls(b.urls);
      if !b.allowed { return []; }
      ghost var p := Snapshot();
      var toQueue;
      inflight, toQueue := Split(unique);
      NewsInTwoSteps(p, b.urls);
      EnqueueAllIsAddAll(p, b.urls, now);
      AddAllSets(p, toQueue, now);
      if |toQueue| == 0 { return; }
      QueueAll(toQueue, now);
      assert |Snapshot().queue| > |p.queue|;
      TrimQueue();
    }

    method BeginFetch(url: Url)
      modifies `abortControllers
      ensures Snapshot() == old(Snapshot()).(controllers := old(abortControllers) + {url})
    {
      abortControllers := abortControllers + {url};
    }

    method EndFetch(url: Url)
      modifies `abortControllers, `urlGeneration
      ensures Snapshot() == Fetched(old(Snapshot()), url)
    {
      abortControllers := abortControllers - {url};
      urlGeneration := urlGeneration - {url};
    }

    method FinishTask(url: Url)
      modifies `activePrefetches, `urlGeneration
      ensures Snapshot() == Finished(old(Snapshot()), url)
    {
      activePrefetches := activePrefetches - {url};
      urlGeneration := urlGeneration - {url};
    }
  }
}
