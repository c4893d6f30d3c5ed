/** What every operation of the prefetch queue keeps, and what holds on every run of its fetch tasks. */
module PrefetchQueueProofs {
  import opened OrderedMap
  import opened PrefetchQueueSpec

  ghost predicate NoDuplicates(s: seq<Url>) {
    forall i, j :: 0 <= i < j < |s| ==> s[i] != s[j]
  }

  /** The array without duplicates, the set and the times name the same URLs. */
  ghost predicate Matched(q: Queue) {
    && NoDuplicates(q.queue)
    && (forall u :: u in q.queue <==> u in q.queued)
    && q.queuedAt.Keys == q.queued
  }

  /** A queued URL has a generation and no task; only a task's URL can be aborted. */
  ghost predicate Separate(q: Queue) {
    q.queued <= q.urlGeneration.Keys && q.queued !! q.active && q.controllers <= q.active
  }

  ghost predicate QueueOk(q: Queue) {
    Matched(q) && Separate(q) && |q.queue| <= MAX_PREFETCH_QUEUE_SIZE
  }

  // ---- Sequences without duplicates

  lemma DropFirst(s: seq<Url>)
    requires s != [] && NoDuplicates(s)
    ensures NoDuplicates(s[1..]) && forall u :: u in s[1..] <==> u in s && u != s[0]
  {
    forall u ensures u in s[1..] <==> u in s && u != s[0] {
      if u in s && u != s[0] {
        var i :| 0 <= i < |s| && s[i] == u;
        assert s[1..][i - 1] == u;
      }
    }
  }

  lemma DropLast(s: seq<Url>)
    requires s != [] && NoDuplicates(s)
    ensures NoDuplicates(s[..|s| - 1]) && forall u :: u in s[..|s| - 1] <==> u in s && u != s[|s| - 1]
  {
    var front := s[..|s| - 1];
    forall u ensures u in front <==> u in s && u != s[|s| - 1] {
      if u in s && u != s[|s| - 1] {
        var i :| 0 <= i < |s| && s[i] == u;
        assert front[i] == u;
      }
    }
  }

  lemma DropMiddle(kept: seq<Url>, rest: seq<Url>)
    requires rest != [] && NoDuplicates(kept + rest)
    ensures NoDuplicates(kept + rest[1..]) && forall u :: u in kept + rest[1..] <==> u in kept + rest && u != rest[0]
  {
    var all, less := kept + rest, kept + rest[1..];
    var n := |kept|;
    assert all[n] == rest[0];
    forall i | 0 <= i < |less| ensures less[i] == all[if i < n then i else i + 1] {}
    forall u ensures u in less <==> u in all && u != rest[0] {
      if u in all && u != rest[0] {
        var i :| 0 <= i < |all| && all[i] == u;
        assert less[if i < n then i else i - 1] == u;
      }
      if u in less {
        var i :| 0 <= i < |less| && less[i] == u;
        assert all[if i < n then i else i + 1] == u;
      }
    }
  }

  lemma Snoc(s: seq<Url>, url: Url)
    requires NoDuplicates(s) && url !in s
    ensures NoDuplicates(s + [url]) && forall u :: u in s + [url] <==> u in s || u == url
  {
  }

  lemma {:induction false} FilterMembers(s: seq<Url>, keep: set<Url>, u: Url)
    ensures u in Filter(s, keep) <==> u in s && u in keep
  {
    if s != [] { FilterMembers(s[1..], keep, u); }
  }

  lemma {:induction false} FilterDistinct(s: seq<Url>, keep: set<Url>)
    requires NoDuplicates(s)
    ensures NoDuplicates(Filter(s, keep)) && |Filter(s, keep)| <= |s|
  {
    if s != [] {
      DropFirst(s);
      FilterDistinct(s[1..], keep);
      FilterMembers(s[1..], keep, s[0]);
    }
  }

  lemma ConsDistinct(url: Url, s: seq<Url>)
    requires NoDuplicates(s) && url !in s
    ensures NoDuplicates([url] + s)
  {
  }

  lemma {:induction false} WithoutMembers(s: seq<Url>, url: Url)
    requires NoDuplicates(s)
    ensures NoDuplicates(Without(s, url)) && |Without(s, url)| <= |s|
    ensures forall u :: u in Without(s, url) <==> u in s && u != url
  {
    if s != [] {
      DropFirst(s);
      WithoutMembers(s[1..], url);
      if s[0] != url { ConsDistinct(s[0], Without(s[1..], url)); }
    }
  }

  // ---- Purging

  lemma ForgetFirst(q: Queue, kept: seq<Url>, rest: seq<Url>)
    requires rest != [] && Matched(q.(queue := kept + rest)) && Separate(q)
    ensures Matched(Forget(q, rest[0]).(queue := kept + rest[1..])) && Separate(Forget(q, rest[0]))
  {
    DropMiddle(kept, rest);
    assert rest[0] in kept + rest;
  }

  /** The unexpired URLs of `s`, in order. */
  function Unexpired(q: Queue, s: seq<Url>, now: int): seq<Url> {
    if s == [] then []
    else if Expired(q, s[0], now) then Unexpired(q, s[1..], now) else [s[0]] + Unexpired(q, s[1..], now)
  }

  lemma {:induction false} UnexpiredForget(q: Queue, s: seq<Url>, url: Url, now: int)
    requires url !in s
    ensures Unexpired(Forget(q, url), s, now) == Unexpired(q, s, now)
  {
    if s != [] { UnexpiredForget(q, s[1..], url, now); }
  }

  lemma {:induction false} UnexpiredMembers(q: Queue, s: seq<Url>, now: int)
    ensures forall u :: u in Unexpired(q, s, now) <==> u in s && !Expired(q, u, now)
  {
    if s != [] { UnexpiredMembers(q, s[1..], now); }
  }

  lemma {:induction false} PurgeFromOk(q: Queue, kept: seq<Url>, rest: seq<Url>, now: int)
    requires Matched(q.(queue := kept + rest)) && Separate(q)
    ensures Matched(PurgeFrom(q, kept, rest, now)) && Separate(PurgeFrom(q, kept, rest, now))
    decreases |rest|
  {
    if rest == [] {
      assert kept + rest == kept;
    } else if Expired(q, rest[0], now) {
      ForgetFirst(q, kept, rest);
      PurgeFromOk(Forget(q, rest[0]), kept, rest[1..], now);
    } else {
      assert kept + [rest[0]] + rest[1..] == kept + rest;
      PurgeFromOk(q, kept + [rest[0]], rest[1..], now);
    }
  }

  lemma {:induction false} PurgeFromShape(q: Queue, kept: seq<Url>, rest: seq<Url>, now: int)
    requires NoDuplicates(rest)
    ensures PurgeFrom(q, kept, rest, now).queue == kept + Unexpired(q, rest, now)
    decreases |rest|
  {
    if rest == [] {
      assert kept + [] == kept;
    } else {
      DropFirst(rest);
      if Expired(q, rest[0], now) {
        PurgeFromShape(Forget(q, rest[0]), kept, rest[1..], now);
        UnexpiredForget(q, rest[1..], rest[0], now);
      } else {
        PurgeFromShape(q, kept + [rest[0]], rest[1..], now);
        assert kept + [rest[0]] + Unexpired(q, rest[1..], now) == kept + ([rest[0]] + Unexpired(q, rest[1..], now));
      }
    }
  }

  lemma {:induction false} PurgeFromFrame(q: Queue, kept: seq<Url>, rest: seq<Url>, now: int)
    ensures var r := PurgeFrom(q, kept, rest, now);
      r.active == q.active && r.controllers == q.controllers && r.generation == q.generation
    decreases |rest|
  {
    if rest == [] {
    } else if Expired(q, rest[0], now) {
      PurgeFromFrame(Forget(q, rest[0]), kept, rest[1..], now);
    } else {
      PurgeFromFrame(q, kept + [rest[0]], rest[1..], now);
    }
  }

  /** The recorded generations left after the expired URLs of `rest` are forgotten. */
  lemma {:induction false} PurgeFromGenerations(q: Queue, kept: seq<Url>, rest: seq<Url>, now: int, u: Url)
    requires NoDuplicates(rest)
    ensures var r := PurgeFrom(q, kept, rest, now);
      && (u in r.urlGeneration <==> u in q.urlGeneration && !(u in rest && Expired(q, u, now)))
      && (u in r.urlGeneration ==> r.urlGeneration[u] == q.urlGeneration[u])
    decreases |rest|
  {
    if rest != [] {
      DropFirst(rest);
      if Expired(q, rest[0], now) {
        PurgeFromGenerations(Forget(q, rest[0]), kept, rest[1..], now, u);
      } else {
        PurgeFromGenerations(q, kept + [rest[0]], rest[1..], now, u);
      }
    }
  }

  lemma PurgeGenerations(q: Queue, now: int)
    requires NoDuplicates(q.queue)
    ensures Purge(q, now).urlGeneration == q.urlGeneration - set u | u in q.queue && Expired(q, u, now)
  {
    var r, gone := Purge(q, now), set u | u in q.queue && Expired(q, u, now);
    forall u ensures u in r.urlGeneration <==> u in q.urlGeneration && u !in gone {
      PurgeFromGenerations(q, [], q.queue, now, u);
    }
    forall u | u in r.urlGeneration ensures r.urlGeneration[u] == q.urlGeneration[u] {
      PurgeFromGenerations(q, [], q.queue, now, u);
    }
  }

  lemma {:induction false} UnexpiredShorter(q: Queue, s: seq<Url>, now: int)
    ensures |Unexpired(q, s, now)| <= |s|
  {
    if s != [] { UnexpiredShorter(q, s[1..], now); }
  }

  /** Purging keeps exactly the unexpired URLs, in order, and forgets the others. */
  lemma PurgeOk(q: Queue, now: int)
    requires QueueOk(q)
    ensures QueueOk(Purge(q, now)) && Purge(q, now).queue == Unexpired(q, q.queue, now)
    ensures Purge(q, now).urlGeneration == q.urlGeneration - set u | u in q.queue && Expired(q, u, now)
    ensures var r := Purge(q, now);
      r.active == q.active && r.controllers == q.controllers && r.generation == q.generation
  {
    assert Matched(q.(queue := [] + q.queue)) by { assert [] + q.queue == q.queue; }
    PurgeFromOk(q, [], q.queue, now);
    PurgeFromShape(q, [], q.queue, now);
    PurgeFromFrame(q, [], q.queue, now);
    PurgeGenerations(q, now);
    UnexpiredShorter(q, q.queue, now);
    assert [] + Unexpired(q, q.queue, now) == Unexpired(q, q.queue, now);
  }

  // ---- Trimming

  lemma {:induction false} TrimMatched(q: Queue)
    requires Matched(q) && Separate(q)
    ensures QueueOk(Trim(q))
    decreases |q.queue|
  {
    if |q.queue| > MAX_PREFETCH_QUEUE_SIZE {
      var last := q.queue[|q.queue| - 1];
      DropLast(q.queue);
      TrimMatched(q.(queue := q.queue[..|q.queue| - 1], queued := q.queued - {last}, queuedAt := q.queuedAt - {last}));
    }
  }

  lemma {:induction false} TrimShape(q: Queue)
    ensures var r := Trim(q);
      && r.queue == (if |q.queue| <= MAX_PREFETCH_QUEUE_SIZE then q.queue else q.queue[..MAX_PREFETCH_QUEUE_SIZE])
      && r.active == q.active && r.controllers == q.controllers && r.generation == q.generation
      && r.urlGeneration == q.urlGeneration
    decreases |q.queue|
  {
    if |q.queue| > MAX_PREFETCH_QUEUE_SIZE {
      var last, front := q.queue[|q.queue| - 1], q.queue[..|q.queue| - 1];
      TrimShape(q.(queue := front, queued := q.queued - {last}, queuedAt := q.queuedAt - {last}));
      assert front[..MAX_PREFETCH_QUEUE_SIZE] == q.queue[..MAX_PREFETCH_QUEUE_SIZE];
      if |front| == MAX_PREFETCH_QUEUE_SIZE { assert front == front[..MAX_PREFETCH_QUEUE_SIZE]; }
    }
  }

  /** Trimming keeps the oldest URLs. */
  lemma TrimOk(q: Queue)
    requires Matched(q) && Separate(q)
    ensures QueueOk(Trim(q))
    ensures Trim(q).queue ==
      if |q.queue| <= MAX_PREFETCH_QUEUE_SIZE then q.queue else q.queue[..MAX_PREFETCH_QUEUE_SIZE]
    ensures Trim(q).active == q.active && Trim(q).controllers == q.controllers && Trim(q).generation == q.generation
    ensures Trim(q).urlGeneration == q.urlGeneration
  {
    TrimMatched(q);
    TrimShape(q);
  }

  // ---- Taking a URL

  lemma ShiftOk(q: Queue, now: int)
    requires QueueOk(q) && q.queue != []
    ensures QueueOk(Shifted(q, now))
    ensures var r := Shifted(q, now);
      && r.active == q.active && r.controllers == q.controllers && r.generation == q.generation
      && forall u :: u in r.queue ==> IsCurrent(r, u) == IsCurrent(q, u) && Stale(r, u, now) == Stale(q, u, now)
  {
    DropFirst(q.queue);
    assert q.queue[0] in q.queued;
  }

  /** The URL taken sat at position `k` behind URLs that were too old or of another generation. */
  ghost predicate TakenAt(q: Queue, now: int, k: nat, r: Queue, url: Url) {
    && k < |q.queue| && url == q.queue[k] && r.queue == q.queue[k + 1..]
    && IsCurrent(q, url) && !Stale(q, url, now)
    && forall i :: 0 <= i < k ==> Stale(q, q.queue[i], now) || !IsCurrent(q, q.queue[i])
  }

  lemma TakenLater(q: Queue, now: int, s: Queue, k: nat, r: Queue, url: Url)
    requires q.queue != [] && s.queue == q.queue[1..] && TakenAt(s, now, k, r, url)
    requires Stale(q, q.queue[0], now) || !IsCurrent(q, q.queue[0])
    requires forall u :: u in s.queue ==> IsCurrent(s, u) == IsCurrent(q, u) && Stale(s, u, now) == Stale(q, u, now)
    ensures TakenAt(q, now, k + 1, r, url)
  {
    forall i | 0 <= i < k + 1 ensures Stale(q, q.queue[i], now) || !IsCurrent(q, q.queue[i]) {
      if i > 0 {
        assert s.queue[i - 1] == q.queue[i];
        assert s.queue[i - 1] in s.queue;
      }
    }
    assert s.queue[k] in s.queue;
  }

  lemma {:induction false} TakeOk(q: Queue, now: int)
    requires QueueOk(q)
    ensures var (r, url) := TakeFrom(q, now);
      && QueueOk(r) && r.active == q.active && r.controllers == q.controllers && r.generation == q.generation
      && (url.Some? ==> url.value !in r.queued && url.value !in r.active && IsCurrent(r, url.value))
      && (url.Some? ==> exists k :: TakenAt(q, now, k, r, url.value))
      && (url.None? ==> r.queue == [] && forall i :: 0 <= i < |q.queue| ==>
        Stale(q, q.queue[i], now) || !IsCurrent(q, q.queue[i]))
    decreases |q.queue|
  {
    if q.queue != [] {
      var first := q.queue[0];
      assert first in q.queued;
      ShiftOk(q, now);
      var s := Shifted(q, now);
      if Judge(q, first, now) == Taken {
        assert TakenAt(q, now, 0, s, first);
      } else {
        TakeOk(s, now);
        var (r, url) := TakeFrom(s, now);
        assert forall i :: 0 <= i < |s.queue| ==> s.queue[i] == q.queue[i + 1];
        if url.Some? {
          var k :| TakenAt(s, now, k, r, url.value);
          TakenLater(q, now, s, k, r, url.value);
        } else {
          forall i | 0 <= i < |q.queue| ensures Stale(q, q.queue[i], now) || !IsCurrent(q, q.queue[i]) {
            if i > 0 { assert s.queue[i - 1] in s.queue; }
          }
        }
      }
    }
  }

  /** The array a worker takes from: purged by the worker and again by the dequeue. */
  function PurgedTwice(q: Queue, now: int): Queue {
    Purge(Purge(q, now), now)
  }

  lemma PurgedTwiceOk(q: Queue, now: int)
    requires QueueOk(q)
    ensures var p := PurgedTwice(q, now);
      && QueueOk(p) && p.active == q.active && p.controllers == q.controllers && p.generation == q.generation
      && forall u :: u in p.queue ==> u in q.queue
  {
    var p := Purge(q, now);
    PurgeOk(q, now);
    PurgeOk(p, now);
    UnexpiredMembers(q, q.queue, now);
    UnexpiredMembers(p, p.queue, now);
  }

  lemma DequeueIsTake(q: Queue, now: int, later: int)
    ensures Dequeue(Purge(q, now), now, later) == TakeFrom(PurgedTwice(q, now), later)
  {
  }

  lemma AddActive(q: Queue, url: Url)
    requires QueueOk(q) && url !in q.queued
    ensures QueueOk(q.(active := q.active + {url}))
  {
  }

  lemma TakenActive(p: Queue, later: int, k: nat, r: Queue, url: Url)
    requires TakenAt(p, later, k, r, url)
    ensures TakenAt(p, later, k, r.(active := r.active + {url}), url) && url in p.queue
  {
    assert p.queue[k] in p.queue;
  }

  /**
   What a worker takes: the first URL that is neither too old nor of another generation; it carries the
   current generation and no task owns it.
   */
  lemma WorkerTakeOk(q: Queue, now: int, later: int)
    requires QueueOk(q)
    ensures var (r, url) := WorkerTake(q, now, later);
      && QueueOk(r) && r.controllers == q.controllers && r.generation == q.generation
      && r.active == (if url.Some? then q.active + {url.value} else q.active)
      && (url.Some? ==> url.value in q.queue && url.value !in q.active && IsCurrent(r, url.value))
      && (url.Some? ==> exists k :: TakenAt(PurgedTwice(q, now), later, k, r, url.value))
  {
    var p := PurgedTwice(q, now);
    PurgedTwiceOk(q, now);
    DequeueIsTake(q, now, later);
    TakeOk(p, later);
    var (r, url) := TakeFrom(p, later);
    if url.Some? {
      AddActive(r, url.value);
      var k :| TakenAt(p, later, k, r, url.value);
      TakenActive(p, later, k, r, url.value);
    }
  }

  /** A demanded URL leaves the queue and starts in the current generation. */
  lemma DemandOk(q: Queue, url: Url)
    requires QueueOk(q) && url in q.queued
    ensures var r := DemandStart(q, url);
      && QueueOk(r) && r.controllers == q.controllers && r.generation == q.generation
      && r.active == q.active + {url} && url !in q.active && url !in r.queued && IsCurrent(r, url)
      && r.queue == Without(q.queue, url)
  {
    WithoutMembers(q.queue, url);
  }

  // ---- Cancelling and queueing

  lemma {:induction false} FilterSame(s: seq<Url>, k: set<Url>, l: set<Url>)
    requires forall u :: u in s ==> (u in k <==> u in l)
    ensures Filter(s, k) == Filter(s, l)
  {
    if s != [] { FilterSame(s[1..], k, l); }
  }

  /** A cancellation leaves exactly the kept URLs, in order, and no abortable fetch outside them. */
  lemma CancelOk(q: Queue, wanted: set<Url>, locked: set<Url>)
    requires QueueOk(q)
    ensures var r := Cancel(q, wanted, locked);
      && QueueOk(r) && r.active == q.active && r.generation == q.generation
      && r.queue == Filter(q.queue, wanted)
      && r.controllers == q.controllers * (wanted + locked)
  {
    var keep := Keep(q, wanted, locked);
    var r := Cancel(q, wanted, locked);
    FilterDistinct(q.queue, keep);
    forall u ensures u in r.queue <==> u in r.queued {
      FilterMembers(q.queue, keep, u);
    }
    FilterSame(q.queue, wanted, keep);
    assert r.queuedAt.Keys == r.queued;
  }

  lemma EnqueueOk(q: Queue, url: Url, now: int)
    requires Matched(q) && Separate(q)
    ensures Matched(Enqueue(q, url, now)) && Separate(Enqueue(q, url, now))
    ensures var r := Enqueue(q, url, now);
      r.active == q.active && r.controllers == q.controllers && r.generation == q.generation
  {
    if url !in q.queue { Snoc(q.queue, url); }
  }

  /** The URLs of a batch that are new, in order: neither active nor queued, none twice, none empty. */
  function News(q: Queue, urls: seq<Url>): seq<Url>
    decreases |urls|
  {
    if urls == [] then []
    else
      var front, last := News(q, urls[..|urls| - 1]), urls[|urls| - 1];
      if last == "" || last in q.active || last in q.queued || last in front then front else front + [last]
  }

  lemma {:induction false} EnqueueAllSnoc(q: Queue, urls: seq<Url>, url: Url, now: int)
    ensures EnqueueAll(q, urls + [url], now) == Enqueue(EnqueueAll(q, urls, now), url, now)
    decreases |urls|
  {
    if urls == [] {
      assert urls + [url] == [url];
      assert [url][1..] == [];
    } else {
      assert (urls + [url])[1..] == urls[1..] + [url];
      EnqueueAllSnoc(Enqueue(q, urls[0], now), urls[1..], url, now);
    }
  }

  /** Queueing a batch appends exactly its new URLs, all of the current generation. */
  lemma {:induction false} EnqueueAllOk(q: Queue, urls: seq<Url>, now: int)
    requires Matched(q) && Separate(q)
    ensures var r := EnqueueAll(q, urls, now);
      && Matched(r) && Separate(r)
      && r.active == q.active && r.controllers == q.controllers && r.generation == q.generation
      && r.queue == q.queue + News(q, urls)
      && forall u :: u in News(q, urls) ==> IsCurrent(r, u)
    decreases |urls|
  {
    if urls == [] {
      assert q.queue + [] == q.queue;
    } else {
      var n := |urls| - 1;
      assert urls == urls[..n] + [urls[n]];
      EnqueueAllOk(q, urls[..n], now);
      EnqueueAllSnoc(q, urls[..n], urls[n], now);
      EnqueueOk(EnqueueAll(q, urls[..n], now), urls[n], now);
      assert q.queue + (News(q, urls[..n]) + [urls[n]]) == q.queue + News(q, urls[..n]) + [urls[n]];
    }
  }

  lemma PreparedOk(q: Queue, b: Batch)
    requires QueueOk(q) && !Outdated(q, b)
    ensures QueueOk(Prepared(q, b)) && Prepared(q, b).active == q.active && Prepared(q, b).controllers <= q.controllers
  {
    match b.generation
    case Some(g) => if g > q.generation { CancelOk(q.(generation := g), b.wanted, b.locked); }
    case None => if !b.append { CancelOk(q, b.wanted, b.locked); }
  }

  /**
   A batch: an outdated one changes nothing; otherwise the runway kept by the cancellation is followed by
   the batch's new URLs, cut to 240, and each new URL has the current generation.
   */
  lemma BatchOk(q: Queue, b: Batch, now: int)
    requires QueueOk(q)
    ensures QueueOk(TakeBatch(q, b, now)) && TakeBatch(q, b, now).active == q.active
    ensures TakeBatch(q, b, now).controllers <= q.controllers
    ensures !Outdated(q, b) && b.allowed ==>
      var p, r := Prepared(q, b), TakeBatch(q, b, now);
      var all := p.queue + News(p, b.urls);
      && r.queue == (if |all| <= MAX_PREFETCH_QUEUE_SIZE then all else all[..MAX_PREFETCH_QUEUE_SIZE])
      && forall u :: u in News(p, b.urls) ==> IsCurrent(r, u)
  {
    if !Outdated(q, b) {
      var p := Prepared(q, b);
      PreparedOk(q, b);
      EnqueueAllOk(p, b.urls, now);
      TrimOk(EnqueueAll(p, b.urls, now));
    }
  }

  // ---- Every run

  datatype Phase = Waiting | Fetching | Over

  /** A task owns one URL: a worker's, or one the player demanded. */
  datatype Task = Task(url: Url, worker: bool, phase: Phase)

  /** `workers` is the counter of busy workers. */
  datatype System = System(q: Queue, tasks: map<nat, Task>, workers: int)

  const START := System(EMPTY, map[], 0)

  datatype Event =
    | BatchArrives(b: Batch, now: int)
    | CancelRunway(generation: Option<int>, wanted: set<Url>, locked: set<Url>)
    | WorkerTurn(id: nat, limit: nat, maintenance: bool, now: int, later: int)
    | Demand(id: nat, url: Url)
    | BeginFetch(id: nat)
    | EndFetch(id: nat)
    | Finish(id: nat)

  /** A worker turns only below the concurrency of the moment, alone in maintenance; a task runs once. */
  predicate Enabled(s: System, e: Event) {
    match e
    case BatchArrives(_, _) => true
    case CancelRunway(_, _, _) => true
    case WorkerTurn(id, limit, maintenance, _, _) =>
      id !in s.tasks && limit <= MAX_PREFETCH_WORKERS && s.workers < limit && (maintenance ==> s.workers < 1)
    case Demand(id, url) => id !in s.tasks && url in s.q.queued
    case BeginFetch(id) => id in s.tasks && s.tasks[id].phase == Waiting
    case EndFetch(id) => id in s.tasks && s.tasks[id].phase == Fetching
    case Finish(id) => id in s.tasks && s.tasks[id].phase != Fetching
  }

  function Fetched(q: Queue, url: Url): Queue {
    q.(controllers := q.controllers - {url}, urlGeneration := q.urlGeneration - {url})
  }

  function Finished(q: Queue, url: Url): Queue {
    q.(active := q.active - {url}, urlGeneration := q.urlGeneration - {url})
  }

  function Next(s: System, e: Event): System
    requires Enabled(s, e)
  {
    match e
    case BatchArrives(b, now) => s.(q := TakeBatch(s.q, b, now))
    case CancelRunway(g, wanted, locked) =>
      s.(q := Cancel(s.q.(generation := g.GetOr(s.q.generation)), wanted, locked))
    case WorkerTurn(id, _, _, now, later) =>
      var (q, url) := WorkerTake(s.q, now, later);
      if url.Some? then System(q, s.tasks[id := Task(url.value, true, Waiting)], s.workers + 1) else s.(q := q)
    case Demand(id, url) => s.(q := DemandStart(s.q, url), tasks := s.tasks[id := Task(url, false, Waiting)])
    case BeginFetch(id) =>
      s.(q := s.q.(controllers := s.q.controllers + {s.tasks[id].url}),
        tasks := s.tasks[id := s.tasks[id].(phase := Fetching)])
    case EndFetch(id) => s.(q := Fetched(s.q, s.tasks[id].url), tasks := s.tasks[id := s.tasks[id].(phase := Over)])
    case Finish(id) =>
      System(Finished(s.q, s.tasks[id].url), s.tasks - {id},
             if !s.tasks[id].worker then s.workers else if s.workers > 1 then s.workers - 1 else 0)
  }

  /** Task `id` owns `url`. */
  predicate Owns(s: System, id: nat, url: Url) {
    id in s.tasks && s.tasks[id].url == url
  }

  ghost predicate SingleOwner(s: System) {
    && (forall i, j, url :: Owns(s, i, url) && Owns(s, j, url) ==> i == j)
    && (forall i: nat, url :: Owns(s, i, url) ==> url in s.q.active)
    && (forall url :: url in s.q.active ==> exists i: nat :: Owns(s, i, url))
  }

  /** Only the URL of a running fetch can be aborted. */
  ghost predicate OnlyFetching(s: System) {
    forall i: nat, url :: Owns(s, i, url) && url in s.q.controllers ==> s.tasks[i].phase == Fetching
  }

  function WorkerTasks(s: System): set<nat> {
    set i | i in s.tasks && s.tasks[i].worker
  }

  ghost predicate WorkersCounted(s: System) {
    s.workers == |WorkerTasks(s)| <= MAX_PREFETCH_WORKERS
  }

  lemma NextQueueOk(s: System, e: Event)
    requires QueueOk(s.q) && SingleOwner(s) && OnlyFetching(s) && Enabled(s, e)
    ensures QueueOk(Next(s, e).q)
  {
    match e
    case BatchArrives(b, now) => BatchOk(s.q, b, now);
    case CancelRunway(g, wanted, locked) => CancelOk(s.q.(generation := g.GetOr(s.q.generation)), wanted, locked);
    case WorkerTurn(_, _, _, now, later) => WorkerTakeOk(s.q, now, later);
    case Demand(_, url) => DemandOk(s.q, url);
    case BeginFetch(id) => assert Owns(s, id, s.tasks[id].url);
    case EndFetch(id) => assert Owns(s, id, s.tasks[id].url);
    case Finish(id) => assert Owns(s, id, s.tasks[id].url);
  }

  /** What a turn does to the active set and the abortable fetches. */
  lemma NextSets(s: System, e: Event)
    requires QueueOk(s.q) && Enabled(s, e)
    ensures var q, r := s.q, Next(s, e).q; match e
      case WorkerTurn(_, _, _, now, later) =>
        var url := WorkerTake(q, now, later).1;
        r.active == (if url.Some? then q.active + {url.value} else q.active) && r.controllers == q.controllers
        && (url.Some? ==> url.value !in q.active)
      case Demand(_, url) => r.active == q.active + {url} && r.controllers == q.controllers && url !in q.active
      case Finish(id) => r.active == q.active - {s.tasks[id].url} && r.controllers == q.controllers
      case BeginFetch(id) => r.active == q.active && r.controllers == q.controllers + {s.tasks[id].url}
      case EndFetch(id) => r.active == q.active && r.controllers == q.controllers - {s.tasks[id].url}
      case _ => r.active == q.active && r.controllers <= q.controllers
  {
    match e
    case BatchArrives(b, now) => BatchOk(s.q, b, now);
    case CancelRunway(g, wanted, locked) => CancelOk(s.q.(generation := g.GetOr(s.q.generation)), wanted, locked);
    case WorkerTurn(_, _, _, now, later) => WorkerTakeOk(s.q, now, later);
    case Demand(_, url) => DemandOk(s.q, url);
    case _ =>
  }

  /** A task starts on a URL nobody owns. */
  lemma StartOwner(s: System, r: System, id: nat, url: Url)
    requires SingleOwner(s) && id !in s.tasks && url !in s.q.active
    requires r.tasks.Keys == s.tasks.Keys + {id} && r.tasks[id].url == url && r.q.active == s.q.active + {url}
    requires forall i :: i in s.tasks ==> r.tasks[i].url == s.tasks[i].url
    ensures SingleOwner(r)
  {
    forall i: nat, u ensures Owns(r, i, u) <==> Owns(s, i, u) || (i == id && u == url) {}
    forall i, j, u | Owns(r, i, u) && Owns(r, j, u) ensures i == j {
      if Owns(s, i, u) { assert u in s.q.active; }
      if Owns(s, j, u) { assert u in s.q.active; }
    }
    forall u | u in r.q.active ensures exists i: nat :: Owns(r, i, u) {
      if u == url {
        assert Owns(r, id, u);
      } else {
        var i: nat :| Owns(s, i, u);
        assert Owns(r, i, u);
      }
    }
  }

  lemma FinishOwner(s: System, r: System, id: nat)
    requires SingleOwner(s) && id in s.tasks
    requires r.tasks == s.tasks - {id} && r.q.active == s.q.active - {s.tasks[id].url}
    ensures SingleOwner(r)
  {
    forall i: nat, u ensures Owns(r, i, u) <==> Owns(s, i, u) && i != id {}
    assert Owns(s, id, s.tasks[id].url);
    forall u | u in r.q.active ensures exists i: nat :: Owns(r, i, u) {
      var i: nat :| Owns(s, i, u);
      assert Owns(r, i, u);
    }
  }

  lemma SameOwners(s: System, r: System)
    requires SingleOwner(s) && r.q.active == s.q.active && r.tasks.Keys == s.tasks.Keys
    requires forall i :: i in s.tasks ==> r.tasks[i].url == s.tasks[i].url
    ensures SingleOwner(r)
  {
    forall i: nat, u ensures Owns(r, i, u) <==> Owns(s, i, u) {}
    forall u | u in r.q.active ensures exists i: nat :: Owns(r, i, u) {
      var i: nat :| Owns(s, i, u);
      assert Owns(r, i, u);
    }
  }

  /** No URL is ever owned by two tasks. */
  lemma NextSingleOwner(s: System, e: Event)
    requires QueueOk(s.q) && SingleOwner(s) && Enabled(s, e)
    ensures SingleOwner(Next(s, e))
  {
    var r := Next(s, e);
    NextSets(s, e);
    match e
    case WorkerTurn(id, _, _, now, later) =>
      var url := WorkerTake(s.q, now, later).1;
      if url.Some? { StartOwner(s, r, id, url.value); } else { SameOwners(s, r); }
    case Demand(id, url) => StartOwner(s, r, id, url);
    case Finish(id) => FinishOwner(s, r, id);
    case _ => SameOwners(s, r);
  }

  lemma FetchingAfter(s: System, e: Event, i: nat, u: Url)
    requires QueueOk(s.q) && SingleOwner(s) && OnlyFetching(s) && Enabled(s, e)
    requires Owns(Next(s, e), i, u) && u in Next(s, e).q.controllers
    ensures Next(s, e).tasks[i].phase == Fetching
  {
    var r := Next(s, e);
    NextSets(s, e);
    match e
    case BeginFetch(id) =>
      if i != id {
        assert Owns(s, i, u);
        assert Owns(s, id, s.tasks[id].url);
      }
    case EndFetch(id) =>
      assert Owns(s, i, u);
    case _ =>
      assert u in s.q.controllers && u in s.q.active;
      if i in s.tasks { assert Owns(s, i, u); }
  }

  lemma NextOnlyFetching(s: System, e: Event)
    requires QueueOk(s.q) && SingleOwner(s) && OnlyFetching(s) && Enabled(s, e)
    ensures OnlyFetching(Next(s, e))
  {
    var r := Next(s, e);
    NextSets(s, e);
    forall i: nat, u | Owns(r, i, u) && u in r.q.controllers ensures r.tasks[i].phase == Fetching {
      FetchingAfter(s, e, i, u);
    }
  }

  lemma SameWorkers(s: System, r: System)
    requires forall i :: i in r.tasks && r.tasks[i].worker <==> i in s.tasks && s.tasks[i].worker
    ensures WorkerTasks(r) == WorkerTasks(s)
  {
  }

  lemma MoreWorkers(s: System, r: System, id: nat)
    requires forall i :: i in r.tasks && r.tasks[i].worker <==> (i in s.tasks && s.tasks[i].worker) || i == id
    requires id !in s.tasks
    ensures |WorkerTasks(r)| == |WorkerTasks(s)| + 1
  {
    assert WorkerTasks(r) == WorkerTasks(s) + {id};
  }

  lemma FewerWorkers(s: System, r: System, id: nat)
    requires forall i :: i in r.tasks && r.tasks[i].worker <==> i in s.tasks && s.tasks[i].worker && i != id
    requires id in s.tasks && s.tasks[id].worker
    ensures |WorkerTasks(r)| == |WorkerTasks(s)| - 1 && |WorkerTasks(s)| > 0
  {
    assert id in WorkerTasks(s);
    assert WorkerTasks(r) == WorkerTasks(s) - {id};
  }

  /** The counter of busy workers is exact, so its clamp at zero never acts, and it stays below nine. */
  lemma NextWorkers(s: System, e: Event)
    requires WorkersCounted(s) && Enabled(s, e)
    ensures WorkersCounted(Next(s, e))
    ensures e.Finish? && s.tasks[e.id].worker ==> Next(s, e).workers == s.workers - 1
  {
    var r := Next(s, e);
    if r.tasks == s.tasks {
      SameWorkers(s, r);
    } else if e.WorkerTurn? {
      MoreWorkers(s, r, e.id);
    } else if e.Finish? && s.tasks[e.id].worker {
      FewerWorkers(s, r, e.id);
    } else {
      SameWorkers(s, r);
    }
  }

  ghost predicate SystemOk(s: System) {
    QueueOk(s.q) && SingleOwner(s) && OnlyFetching(s) && WorkersCounted(s)
  }

  ghost predicate RunOk(s: System, es: seq<Event>)
    decreases |es|
  {
    es == [] || (Enabled(s, es[0]) && RunOk(Next(s, es[0]), es[1..]))
  }

  ghost function Run(s: System, es: seq<Event>): System
    requires RunOk(s, es)
    decreases |es|
  {
    if es == [] then s else Run(Next(s, es[0]), es[1..])
  }

  /** Every invariant holds on every run, in any interleaving of batches, cancellations, workers and demands. */
  lemma {:induction false} RunKeepsSystem(s: System, es: seq<Event>)
    requires SystemOk(s) && RunOk(s, es)
    ensures SystemOk(Run(s, es))
    decreases |es|
  {
    if es != [] {
      NextQueueOk(s, es[0]);
      NextSingleOwner(s, es[0]);
      NextOnlyFetching(s, es[0]);
      NextWorkers(s, es[0]);
      RunKeepsSystem(Next(s, es[0]), es[1..]);
    }
  }

  lemma StartOk()
    ensures SystemOk(START)
  {
    assert WorkerTasks(START) == {};
  }

  /** On every run a task starts only on a URL of the current generation that no other task owns. */
  lemma StartsCurrent(es: seq<Event>, e: Event, id: nat, url: Url)
    requires RunOk(START, es) && Enabled(Run(START, es), e) && id !in Run(START, es).tasks
    requires Owns(Next(Run(START, es), e), id, url)
    ensures var s := Run(START, es);
      IsCurrent(Next(s, e).q, url) && url in s.q.queued && forall i: nat :: !Owns(s, i, url)
  {
    var s := Run(START, es);
    StartOk();
    RunKeepsSystem(START, es);
    match e
    case WorkerTurn(_, _, _, now, later) => WorkerTakeOk(s.q, now, later);
    case Demand(_, u) => DemandOk(s.q, u);
    case _ =>
  }
}
