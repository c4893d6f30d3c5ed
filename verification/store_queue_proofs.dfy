/** What every run of the store write queue keeps, and where per-key serialization ends. */
module StoreQueueProofs {
  import opened OrderedMap
  import opened StoreQueueSpec

  // ---- Counting

  lemma {:induction false} CountUpdate(tasks: seq<Task>, i: nat, t: Task, p: Phase)
    requires i < |tasks|
    ensures Count(tasks[i := t], p) + (if tasks[i].phase == p then 1 else 0)
         == Count(tasks, p) + (if t.phase == p then 1 else 0)
  {
    var n := |tasks| - 1;
    if i < n {
      assert tasks[i := t][..n] == tasks[..n][i := t];
      CountUpdate(tasks[..n], i, t, p);
    } else {
      assert tasks[i := t][..n] == tasks[..n];
    }
  }

  lemma {:induction false} RankUpdate(tasks: seq<Task>, i: nat, t: Task)
    requires i < |tasks|
    ensures TotalRank(tasks[i := t]) + Rank(tasks[i].phase) == TotalRank(tasks) + Rank(t.phase)
  {
    var n := |tasks| - 1;
    if i < n {
      assert tasks[i := t][..n] == tasks[..n][i := t];
      RankUpdate(tasks[..n], i, t);
    } else {
      assert tasks[i := t][..n] == tasks[..n];
    }
  }

  /** Every submitted task is in exactly one of the six fates. */
  lemma {:induction false} CountTotal(tasks: seq<Task>)
    ensures |tasks| == Count(tasks, Waiting) + Count(tasks, Queued) + Count(tasks, Active)
                     + Count(tasks, Completed) + Count(tasks, Rejected) + Count(tasks, Dropped)
  {
    if tasks != [] { CountTotal(tasks[..|tasks| - 1]); }
  }

  lemma CountAppend(tasks: seq<Task>, t: Task, p: Phase)
    ensures Count(tasks + [t], p) == Count(tasks, p) + if t.phase == p then 1 else 0
  {
    assert (tasks + [t])[..|tasks|] == tasks;
  }

  lemma UpdatedCounts(tasks: seq<Task>, i: nat, t: Task)
    requires i < |tasks|
    ensures forall p :: Count(tasks[i := t], p) + (if tasks[i].phase == p then 1 else 0)
                     == Count(tasks, p) + (if t.phase == p then 1 else 0)
  {
    forall p { CountUpdate(tasks, i, t, p); }
  }

  lemma Conservation(L: Limits, s: State)
    requires Core(L, s)
    ensures |s.tasks| == Count(s.tasks, Waiting) + |s.queue| + s.active + s.completed + s.rejected + s.dropped
  {
    CountTotal(s.tasks);
  }

  // ---- The steps keep the core invariant

  lemma StartHeadCounts(L: Limits, s: State)
    requires Core(L, s) && s.queue != []
    ensures CountsExact(StartHead(s))
  {
    UpdatedCounts(s.tasks, s.queue[0], s.tasks[s.queue[0]].(phase := Active));
  }

  lemma OrderedDistinct(tasks: seq<Task>, queue: seq<nat>, i: nat, j: nat)
    requires InRange(queue, |tasks|) && QueueOrdered(tasks, queue) && i < j < |queue|
    ensures queue[i] != queue[j]
  {
    assert Before(tasks[queue[i]], tasks[queue[j]]);
  }

  /** Position of `x` after inserting at `at` (or, backwards, before removing there). */
  function Shift(i: nat, at: nat): nat {
    if i < at then i else i + 1
  }

  /** Taking one entry out of the queue and its task out of the queued phase; `q` is the shorter queue. */
  lemma RemoveCore(tasks: seq<Task>, queue: seq<nat>, q: seq<nat>, arrivals: nat, at: nat, t: Task)
    requires InRange(queue, |tasks|) && QueueOrdered(tasks, queue) && QueueExact(tasks, queue)
    requires StampsPast(tasks, queue, arrivals)
    requires at < |queue| && !t.phase.Queued?
    requires |q| == |queue| - 1 && forall i: nat :: i < |q| ==> q[i] == queue[Shift(i, at)]
    ensures var ts := tasks[queue[at] := t];
      InRange(q, |ts|) && QueueOrdered(ts, q) && QueueExact(ts, q) && StampsPast(ts, q, arrivals)
  {
    var ts := tasks[queue[at] := t];
    forall i: nat | i < |q|
      ensures q[i] != queue[at] && ts[q[i]] == tasks[queue[Shift(i, at)]]
    {
      if i < at { OrderedDistinct(tasks, queue, i, at); } else { OrderedDistinct(tasks, queue, at, i + 1); }
    }
    forall i, j | 0 <= i < j < |q|
      ensures Before(ts[q[i]], ts[q[j]])
    {
      assert Before(tasks[queue[Shift(i, at)]], tasks[queue[Shift(j, at)]]);
    }
    forall id: nat | id < |ts| && ts[id].phase.Queued?
      ensures id in q
    {
      assert id in queue;
      var i: nat :| i < |queue| && queue[i] == id;
      assert q[if i < at then i else i - 1] == id;
    }
  }

  lemma StartHeadCore(L: Limits, s: State)
    requires Core(L, s) && s.queue != [] && s.active < L.concurrency
    ensures Core(L, StartHead(s))
  {
    StartHeadCounts(L, s);
    RemoveCore(s.tasks, s.queue, s.queue[1..], s.arrivals, 0, s.tasks[s.queue[0]].(phase := Active));
  }

  lemma StartHeadEvolves(s: State)
    requires Ids(s) && s.queue != [] && s.tasks[s.queue[0]].phase.Queued?
    ensures Evolves(s, StartHead(s))
  {
  }

  lemma EvolvesTrans(a: State, b: State, c: State)
    requires Evolves(a, b) && Evolves(b, c)
    ensures Evolves(a, c)
  {
  }

  lemma {:induction false} PumpCore(L: Limits, s: State)
    requires Core(L, s)
    ensures Core(L, Pump(L, s)) && NeverStalls(L, Pump(L, s)) && Evolves(s, Pump(L, s))
    decreases |s.queue|
  {
    if s.active < L.concurrency && s.queue != [] {
      StartHeadCore(L, s);
      StartHeadEvolves(s);
      PumpCore(L, StartHead(s));
      EvolvesTrans(s, StartHead(s), Pump(L, s));
    }
  }

  /** How many queued writes fit the free slots. */
  ghost function Fit(L: Limits, s: State): nat
    requires s.active <= L.concurrency
  {
    if L.concurrency - s.active <= |s.queue| then L.concurrency - s.active else |s.queue|
  }

  lemma {:induction false} PumpTakes(L: Limits, s: State)
    requires Ids(s) && s.active <= L.concurrency
    ensures var r := Pump(L, s); var n := Fit(L, s);
      && r.queue == s.queue[n..] && r.active == s.active + n && |r.tasks| == |s.tasks|
      && r == s.(queue := r.queue, active := r.active, tasks := r.tasks)
    decreases |s.queue|
  {
    if s.active < L.concurrency && s.queue != [] { PumpTakes(L, StartHead(s)); }
  }

  lemma {:induction false} PumpTask(L: Limits, s: State, id: nat)
    requires Ids(s) && s.active <= L.concurrency && id < |s.tasks| == |Pump(L, s).tasks|
    ensures Pump(L, s).tasks[id] ==
      if id in s.queue[..Fit(L, s)] then s.tasks[id].(phase := Active) else s.tasks[id]
    decreases |s.queue|
  {
    if s.active < L.concurrency && s.queue != [] {
      var n := Fit(L, s);
      PumpTask(L, StartHead(s), id);
      assert s.queue[..n] == [s.queue[0]] + s.queue[1..][..n - 1];
    }
  }

  /** The pump starts the longest queue prefix that fits the free slots, and touches nothing else. */
  lemma PumpStarts(L: Limits, s: State)
    requires Ids(s) && s.active <= L.concurrency
    ensures var r := Pump(L, s); var n := Fit(L, s);
      && r.queue == s.queue[n..] && r.active == s.active + n && |r.tasks| == |s.tasks|
      && (forall id: nat :: id < |s.tasks| ==>
            r.tasks[id] == if id in s.queue[..n] then s.tasks[id].(phase := Active) else s.tasks[id])
      && r == s.(queue := r.queue, active := r.active, tasks := r.tasks)
  {
    PumpTakes(L, s);
    forall id: nat | id < |s.tasks|
      ensures Pump(L, s).tasks[id] ==
        if id in s.queue[..Fit(L, s)] then s.tasks[id].(phase := Active) else s.tasks[id]
    {
      PumpTask(L, s, id);
    }
  }

  lemma InsertedAt(queue: seq<nat>, at: nat, id: nat, i: nat)
    requires at <= |queue| && i <= |queue|
    ensures (queue[..at] + [id] + queue[at..])[i] == if i < at then queue[i] else if i == at then id else queue[i - 1]
  {
  }

  lemma InsertOrdered(tasks: seq<Task>, queue: seq<nat>, id: nat, t: Task, at: nat)
    requires InRange(queue, |tasks|) && QueueOrdered(tasks, queue) && id < |tasks| && id !in queue
    requires at == if t.high then FirstLow(tasks, queue) else |queue|
    requires StampsPast(tasks, queue, t.stamp)
    ensures var r := queue[..at] + [id] + queue[at..];
      InRange(r, |tasks|) && QueueOrdered(tasks[id := t], r)
  {
    var r := queue[..at] + [id] + queue[at..];
    forall i | 0 <= i < |r| ensures r[i] < |tasks| { InsertedAt(queue, at, id, i); }
    forall i, j | 0 <= i < j < |r|
      ensures Before(tasks[id := t][r[i]], tasks[id := t][r[j]])
    {
      InsertedAt(queue, at, id, i);
      InsertedAt(queue, at, id, j);
      if i == at && at < j - 1 { assert Before(tasks[queue[at]], tasks[queue[j - 1]]); }
    }
  }

  lemma InsertExact(tasks: seq<Task>, queue: seq<nat>, id: nat, t: Task, at: nat)
    requires InRange(queue, |tasks|) && QueueExact(tasks, queue) && id < |tasks| && id !in queue && at <= |queue|
    requires t.phase.Queued?
    ensures var r := queue[..at] + [id] + queue[at..];
      InRange(r, |tasks|) && QueueExact(tasks[id := t], r)
  {
    var r := queue[..at] + [id] + queue[at..];
    forall i | 0 <= i < |r|
      ensures r[i] < |tasks| && tasks[id := t][r[i]].phase.Queued?
    {
      InsertedAt(queue, at, id, i);
    }
    forall q: nat | q < |tasks| && tasks[id := t][q].phase.Queued?
      ensures q in r
    {
      if q != id { assert q in queue; }
    }
  }

  ghost function InsertPoint(s: State, id: nat): nat
    requires Ids(s) && id < |s.tasks|
  {
    if s.tasks[id].high then FirstLow(s.tasks, s.queue) else |s.queue|
  }

  lemma InsertQueue(L: Limits, s: State, id: nat)
    requires Core(L, s) && id < |s.tasks| && s.tasks[id].phase.Waiting?
    ensures var r := Insert(s, id);
      && QueueOrdered(r.tasks, r.queue) && QueueExact(r.tasks, r.queue) && StampsPast(r.tasks, r.queue, r.arrivals)
  {
    var t := s.tasks[id].(phase := Queued, stamp := s.arrivals);
    var at := InsertPoint(s, id);
    var r := Insert(s, id);
    InsertOrdered(s.tasks, s.queue, id, t, at);
    InsertExact(s.tasks, s.queue, id, t, at);
    forall i | 0 <= i < |r.queue|
      ensures r.tasks[r.queue[i]].stamp < r.arrivals
    {
      InsertedAt(s.queue, at, id, i);
    }
  }

  lemma InsertCounts(L: Limits, s: State, id: nat)
    requires Core(L, s) && id < |s.tasks| && s.tasks[id].phase.Waiting?
    ensures CountsExact(Insert(s, id)) && |Insert(s, id).queue| == |s.queue| + 1
  {
    UpdatedCounts(s.tasks, id, s.tasks[id].(phase := Queued, stamp := s.arrivals));
  }

  lemma InsertCore(L: Limits, s: State, id: nat)
    requires Core(L, s) && id < |s.tasks| && s.tasks[id].phase.Waiting? && !Full(L, s)
    ensures Core(L, Insert(s, id))
  {
    InsertQueue(L, s, id);
    InsertCounts(L, s, id);
  }

  lemma InsertEvolves(s: State, id: nat)
    requires Ids(s) && id < |s.tasks| && s.tasks[id].phase.Waiting?
    ensures Evolves(s, Insert(s, id))
  {
  }

  lemma EvictLowQueue(L: Limits, s: State)
    requires Core(L, s) && FirstLow(s.tasks, s.queue) < |s.queue|
    ensures var r := EvictLow(s);
      && QueueOrdered(r.tasks, r.queue) && QueueExact(r.tasks, r.queue) && StampsPast(r.tasks, r.queue, r.arrivals)
  {
    var at := FirstLow(s.tasks, s.queue);
    RemoveCore(s.tasks, s.queue, EvictLow(s).queue, s.arrivals, at, s.tasks[s.queue[at]].(phase := Dropped));
  }

  lemma EvictLowCounts(L: Limits, s: State)
    requires Core(L, s) && FirstLow(s.tasks, s.queue) < |s.queue|
    ensures CountsExact(EvictLow(s)) && |EvictLow(s).queue| == |s.queue| - 1 && EvictLow(s).active == s.active
  {
    var v := s.queue[FirstLow(s.tasks, s.queue)];
    UpdatedCounts(s.tasks, v, s.tasks[v].(phase := Dropped));
  }

  lemma EvictLowCore(L: Limits, s: State)
    requires Core(L, s) && FirstLow(s.tasks, s.queue) < |s.queue|
    ensures Core(L, EvictLow(s)) && !Full(L, EvictLow(s))
  {
    EvictLowQueue(L, s);
    EvictLowCounts(L, s);
  }

  lemma EvictLowEvolves(s: State)
    requires Ids(s) && FirstLow(s.tasks, s.queue) < |s.queue|
    requires s.tasks[s.queue[FirstLow(s.tasks, s.queue)]].phase.Queued?
    ensures Evolves(s, EvictLow(s))
  {
  }

  lemma DropCore(L: Limits, s: State, id: nat)
    requires Core(L, s) && id < |s.tasks| && s.tasks[id].phase.Waiting?
    ensures Core(L, Drop(s, id)) && Evolves(s, Drop(s, id))
  {
    UpdatedCounts(s.tasks, id, s.tasks[id].(phase := Dropped));
  }

  /** `Insert` then `Pump`, the admitting half of enqueueUnbounded. */
  lemma AdmitCore(L: Limits, s: State, id: nat)
    requires Core(L, s) && id < |s.tasks| && s.tasks[id].phase.Waiting? && !Full(L, s)
    ensures var r := Pump(L, Insert(s, id));
      Core(L, r) && NeverStalls(L, r) && Evolves(s, r) && r.tails == s.tails && |r.tasks| == |s.tasks|
  {
    InsertCore(L, s, id);
    InsertEvolves(s, id);
    PumpCore(L, Insert(s, id));
    PumpStarts(L, Insert(s, id));
    EvolvesTrans(s, Insert(s, id), Pump(L, Insert(s, id)));
  }

  lemma EnqueueCore(L: Limits, s: State, id: nat)
    requires Core(L, s) && NeverStalls(L, s) && id < |s.tasks| && s.tasks[id].phase.Waiting?
    ensures var r := Enqueue(L, s, id);
      Core(L, r) && NeverStalls(L, r) && Evolves(s, r) && r.tails == s.tails && |r.tasks| == |s.tasks|
  {
    if !Full(L, s) {
      AdmitCore(L, s, id);
    } else if Evicts(s, id) {
      EvictLowCore(L, s);
      EvictLowEvolves(s);
      AdmitCore(L, EvictLow(s), id);
      EvolvesTrans(s, EvictLow(s), Enqueue(L, s, id));
    } else {
      DropCore(L, s, id);
    }
  }

  /** Chain links and tails only mention identities, which no step changes. */
  lemma ChainsEvolve(L: Limits, s: State, r: State)
    requires ChainsPointBack(s) && TailsOk(L, s) && Evolves(s, r) && |r.tasks| == |s.tasks| && r.tails == s.tails
    ensures ChainsPointBack(r) && TailsOk(L, r)
  {
    forall j: nat | j < |r.tasks|
      ensures LinkOk(r.tasks, j)
    {
      assert LinkOk(s.tasks, j);
    }
  }

  lemma EnqueueInv(L: Limits, s: State, id: nat)
    requires ValidLimits(L) && Inv(L, s) && id < |s.tasks| && s.tasks[id].phase.Waiting?
    ensures var r := Enqueue(L, s, id);
      Inv(L, r) && Evolves(s, r) && r.tails == s.tails && |r.tasks| == |s.tasks|
  {
    EnqueueCore(L, s, id);
    ChainsEvolve(L, s, Enqueue(L, s, id));
  }

  lemma AppendCore(L: Limits, s: State, t: Task)
    requires Inv(L, s) && t.phase.Waiting?
    requires t.pred.Some? ==> t.pred.value < |s.tasks| && t.key.Some? && s.tasks[t.pred.value].key == t.key
    ensures Inv(L, s.(tasks := s.tasks + [t])) && Evolves(s, s.(tasks := s.tasks + [t]))
  {
    forall p { CountAppend(s.tasks, t, p); }
    var ts := s.tasks + [t];
    forall j: nat | j < |ts|
      ensures LinkOk(ts, j)
    {
      if j < |s.tasks| { assert LinkOk(s.tasks, j); }
    }
  }

  lemma DropFirstGet<K, V>(m: OMap<K, V>, k: K)
    requires Distinct(m) && m != []
    ensures Get(m[1..], k) == if m[0].key == k then None else Get(m, k)
  {
    if m[0].key == k { GetNoneIff(m[1..], k); }
  }

  /** A bounded map overflows by one pair at most, and then its oldest pair goes. */
  lemma PruneOverflow<K, V>(tails: OMap<K, V>, k: K, v: V, bound: nat)
    requires Distinct(tails) && |tails| <= bound && 1 <= bound && |Set(tails, k, v)| > bound
    ensures var m := Set(tails, k, v);
      tails != [] && m[0] == tails[0] && m[0].key != k && m[|m| - bound..] == m[1..]
  {
    SetDistinct(tails, k, v);
  }

  lemma PruneTails(L: Limits, s: State, k: Key, k': Key)
    requires ValidLimits(L) && TailsOk(L, s)
    ensures var m := Set(s.tails, k, |s.tasks|);
      Get(Prune(L, m), k') == if k' == k then Some(|s.tasks|)
                              else if |m| > L.maxTails && s.tails[0].key == k' then None
                              else Get(s.tails, k')
  {
    var m := Set(s.tails, k, |s.tasks|);
    SetGet(s.tails, k, |s.tasks|, k');
    if |m| > L.maxTails {
      PruneOverflow(s.tails, k, |s.tasks|, L.maxTails);
      SetDistinct(s.tails, k, |s.tasks|);
      DropFirstGet(m, k');
    }
  }

  lemma PruneTailsOk(L: Limits, s: State, k: Key)
    requires ValidLimits(L) && TailsOk(L, s)
    ensures var r := Prune(L, Set(s.tails, k, |s.tasks|));
      Distinct(r) && |r| <= L.maxTails && forall p :: p in r ==> p == Pair(k, |s.tasks|) || p in s.tails
  {
    SetDistinct(s.tails, k, |s.tasks|);
  }

  lemma KeyedSubmitInv(L: Limits, s: State, k: Key, high: bool)
    requires ValidLimits(L) && Inv(L, s)
    ensures var r := SubmitWrite(L, s, Some(k), high); Inv(L, r) && Evolves(s, r)
  {
    var t := Task(Some(k), high, Get(s.tails, k), Waiting, 0);
    if t.pred.Some? { assert s.tails[IndexOf(s.tails, k)] in s.tails; }
    AppendCore(L, s, t);
    PruneTailsOk(L, s, k);
  }

  lemma UnkeyedSubmitInv(L: Limits, s: State, high: bool)
    requires ValidLimits(L) && Inv(L, s)
    ensures var r := SubmitWrite(L, s, None, high); Inv(L, r) && Evolves(s, r)
  {
    var t := Task(None, high, None, Waiting, 0);
    var m := s.(tasks := s.tasks + [t]);
    AppendCore(L, s, t);
    EnqueueInv(L, m, |s.tasks|);
    EvolvesTrans(s, m, Enqueue(L, m, |s.tasks|));
  }

  lemma FinishCounts(L: Limits, s: State, id: nat, ok: bool)
    requires Core(L, s) && id < |s.tasks| && s.tasks[id].phase.Active?
    ensures s.active >= 1 && CountsExact(FinishTask(s, id, ok))
  {
    UpdatedCounts(s.tasks, id, s.tasks[id].(phase := if ok then Completed else Rejected));
  }

  /** Changing a task that is not queued leaves the queue as it was. */
  lemma OutsideQueue(tasks: seq<Task>, queue: seq<nat>, arrivals: nat, id: nat, t: Task)
    requires InRange(queue, |tasks|) && QueueOrdered(tasks, queue) && QueueExact(tasks, queue)
    requires StampsPast(tasks, queue, arrivals)
    requires id < |tasks| && !tasks[id].phase.Queued? && !t.phase.Queued?
    ensures var ts := tasks[id := t];
      QueueOrdered(ts, queue) && QueueExact(ts, queue) && StampsPast(ts, queue, arrivals)
  {
  }

  lemma FinishCore(L: Limits, s: State, id: nat, ok: bool)
    requires Core(L, s) && id < |s.tasks| && s.tasks[id].phase.Active?
    ensures s.active >= 1
    ensures var r := FinishTask(s, id, ok); Core(L, r) && NeverStalls(L, r) && Evolves(s, r)
  {
    FinishCounts(L, s, id, ok);
    OutsideQueue(s.tasks, s.queue, s.arrivals, id, s.tasks[id].(phase := if ok then Completed else Rejected));
  }

  lemma FinishInv(L: Limits, s: State, id: nat, ok: bool)
    requires Inv(L, s) && id < |s.tasks| && s.tasks[id].phase.Active?
    ensures var r := FinishTask(s, id, ok); Inv(L, r) && Evolves(s, r)
  {
    FinishCore(L, s, id, ok);
    ChainsEvolve(L, s, FinishTask(s, id, ok));
  }

  lemma TickInv(L: Limits, s: State)
    requires Inv(L, s) && s.pumps > 0
    ensures var r := Pump(L, s.(pumps := s.pumps - 1)); Inv(L, r) && Evolves(s, r) && r.tails == s.tails
  {
    var m := s.(pumps := s.pumps - 1);
    assert Core(L, m);
    PumpCore(L, m);
    PumpStarts(L, m);
    ChainsEvolve(L, s, Pump(L, m));
  }

  lemma CleanTailInv(L: Limits, s: State, id: nat)
    requires Inv(L, s) && id < |s.tasks| && s.tasks[id].key.Some?
    ensures Inv(L, CleanTails(s, id)) && Evolves(s, CleanTails(s, id))
  {
    DeleteDistinct(s.tails, s.tasks[id].key.value);
  }

  lemma NextInv(L: Limits, s: State, e: Event)
    requires ValidLimits(L) && Inv(L, s) && Enabled(s, e)
    ensures Inv(L, Next(L, s, e)) && Evolves(s, Next(L, s, e))
  {
    match e
    case Submit(None, high) => UnkeyedSubmitInv(L, s, high);
    case Submit(Some(k), high) => KeyedSubmitInv(L, s, k, high);
    case Admit(id) => EnqueueInv(L, s, id);
    case PumpTick => TickInv(L, s);
    case Finish(id, ok) => FinishInv(L, s, id, ok);
    case CleanTail(id) => CleanTailInv(L, s, id);
  }

  /**
   Safety over whole runs: the queue order, the depth and concurrency bounds, exact counters and
   "never stalls" hold in every reachable state, and a settled write never changes again.
   */
  lemma {:induction false} RunInv(L: Limits, s: State, es: seq<Event>)
    requires ValidLimits(L) && Inv(L, s) && RunOk(L, s, es)
    ensures Inv(L, Run(L, s, es)) && Evolves(s, Run(L, s, es))
    decreases |es|
  {
    if es != [] {
      var m := Next(L, s, es[0]);
      NextInv(L, s, es[0]);
      RunInv(L, m, es[1..]);
      EvolvesTrans(s, m, Run(L, s, es));
    }
  }

  lemma EmptyInv(L: Limits)
    requires ValidLimits(L)
    ensures Inv(L, EMPTY) && KeyInv(EMPTY)
  {
  }

  // ---- Backpressure

  /** Admission puts `id` in service; of the others it can only move queued writes to active. */
  ghost predicate OnlyStarts(s: State, r: State, id: nat) {
    && |r.tasks| == |s.tasks|
    && (id < |s.tasks| ==> InService(r.tasks[id]))
    && forall j: nat :: j < |s.tasks| && j != id ==>
         r.tasks[j] == s.tasks[j] || (s.tasks[j].phase.Queued? && r.tasks[j].phase.Active?)
  }

  lemma AdmitOnlyStarts(L: Limits, s: State, id: nat)
    requires Core(L, s) && id < |s.tasks| && s.tasks[id].phase.Waiting? && !Full(L, s)
    ensures OnlyStarts(s, Pump(L, Insert(s, id)), id)
  {
    var m := Insert(s, id);
    InsertCore(L, s, id);
    PumpStarts(L, m);
    forall j: nat | j < |s.tasks| && j in m.queue[..Fit(L, m)]
      ensures m.tasks[j].phase.Queued?
    {
      assert j in m.queue;
    }
  }

  /** The first low entry is the longest-queued low write. */
  lemma FirstLowIsOldest(tasks: seq<Task>, queue: seq<nat>, q: nat)
    requires InRange(queue, |tasks|) && QueueOrdered(tasks, queue) && q in queue && !tasks[q].high
    ensures var at := FirstLow(tasks, queue);
      at < |queue| && (q == queue[at] || tasks[queue[at]].stamp < tasks[q].stamp)
  {
    var i :| 0 <= i < |queue| && queue[i] == q;
    var at := FirstLow(tasks, queue);
    if at < i { assert Before(tasks[queue[at]], tasks[q]); }
  }

  lemma OldestLowIff(tasks: seq<Task>, queue: seq<nat>, v: nat)
    requires InRange(queue, |tasks|) && QueueOrdered(tasks, queue) && QueueExact(tasks, queue)
    requires v < |tasks| && tasks[v].phase.Queued?
    ensures var at := FirstLow(tasks, queue);
      (at < |queue| && queue[at] == v) <==>
        !tasks[v].high && forall q :: q in queue && !tasks[q].high ==> tasks[v].stamp <= tasks[q].stamp
  {
    var at := FirstLow(tasks, queue);
    assert v in queue;
    if !tasks[v].high { FirstLowIsOldest(tasks, queue, v); }
    forall q | q in queue && !tasks[q].high && at < |queue|
      ensures tasks[queue[at]].stamp <= tasks[q].stamp
    {
      FirstLowIsOldest(tasks, queue, q);
    }
    if at < |queue| { assert queue[at] in queue; }
  }

  /** An arrival is dropped exactly when the queue is full and it is not a high write facing a queued low one. */
  lemma ArrivalDropped(L: Limits, s: State, id: nat)
    requires Core(L, s) && NeverStalls(L, s) && id < |s.tasks| && s.tasks[id].phase.Waiting?
    ensures |Enqueue(L, s, id).tasks| == |s.tasks|
    ensures Enqueue(L, s, id).tasks[id].phase.Dropped? <==>
      Full(L, s) && !(s.tasks[id].high && exists q :: q in s.queue && !s.tasks[q].high)
  {
    EnqueueCore(L, s, id);
    if !Full(L, s) {
      AdmitOnlyStarts(L, s, id);
    } else if Evicts(s, id) {
      EvictLowCore(L, s);
      AdmitOnlyStarts(L, EvictLow(s), id);
      assert s.queue[FirstLow(s.tasks, s.queue)] in s.queue;
    }
  }

  /**
   A queued write is dropped by an arrival exactly when the queue is full, the arrival is high, and the
   write is the oldest queued low one.  In particular a queued high write is never dropped.
   */
  lemma QueuedDropped(L: Limits, s: State, id: nat, v: nat)
    requires Core(L, s) && NeverStalls(L, s) && id < |s.tasks| && s.tasks[id].phase.Waiting?
    requires v < |s.tasks| && s.tasks[v].phase.Queued?
    ensures |Enqueue(L, s, id).tasks| == |s.tasks|
    ensures Enqueue(L, s, id).tasks[v].phase.Dropped? <==>
      && Full(L, s) && s.tasks[id].high && !s.tasks[v].high
      && forall q :: q in s.queue && !s.tasks[q].high ==> s.tasks[v].stamp <= s.tasks[q].stamp
  {
    EnqueueCore(L, s, id);
    OldestLowIff(s.tasks, s.queue, v);
    if !Full(L, s) {
      AdmitOnlyStarts(L, s, id);
    } else if Evicts(s, id) {
      EvictLowCore(L, s);
      AdmitOnlyStarts(L, EvictLow(s), id);
    }
  }

  // ---- Per-key serialization

  lemma KeyInvEvolves(s: State, r: State, id: nat)
    requires KeyInv(s) && Evolves(s, r) && |r.tasks| == |s.tasks| && r.tails == s.tails
    requires forall j: nat :: j < |s.tasks| && j != id && s.tasks[j].phase.Waiting? ==> r.tasks[j].phase.Waiting?
    requires id < |s.tasks| && s.tasks[id].phase.Waiting? ==> Enabled(s, Admit(id))
    ensures KeyInv(r)
  {
    forall j: nat | j < |r.tasks| ensures LinkOk(r.tasks, j) { assert LinkOk(s.tasks, j); }
    forall i: nat, j: nat | i < j < |r.tasks| && SameKey(r, i, j) && !r.tasks[j].phase.Waiting?
      ensures Settled(r.tasks[i])
    {
      assert SameKey(s, i, j) && LinkOk(s.tasks, j);
      if s.tasks[j].phase.Waiting? {
        assert j == id;
        match s.tasks[j].pred {
          case None =>
          case Some(p) =>
            if i < p { assert SameKey(s, i, p); }
        }
      }
    }
    forall i: nat, j: nat | i < j < |r.tasks| && SameKey(r, i, j)
      ensures match r.tasks[j].pred case Some(p) => i <= p case None => Settled(r.tasks[i])
    {
      assert SameKey(s, i, j);
    }
  }

  /** For other tasks than the admitted one, `Enqueue` moves nothing out of the waiting phase. */
  lemma EnqueueLeavesWaiting(L: Limits, s: State, id: nat, j: nat)
    requires Core(L, s) && NeverStalls(L, s) && id < |s.tasks| && s.tasks[id].phase.Waiting?
    requires j < |s.tasks| && j != id && s.tasks[j].phase.Waiting?
    ensures |Enqueue(L, s, id).tasks| == |s.tasks| && Enqueue(L, s, id).tasks[j] == s.tasks[j]
  {
    if !Full(L, s) {
      AdmitOnlyStarts(L, s, id);
    } else if Evicts(s, id) {
      EvictLowCore(L, s);
      AdmitOnlyStarts(L, EvictLow(s), id);
    }
  }

  lemma AdmitKeyInv(L: Limits, s: State, id: nat)
    requires Inv(L, s) && KeyInv(s) && Enabled(s, Admit(id))
    ensures KeyInv(Enqueue(L, s, id))
  {
    EnqueueCore(L, s, id);
    forall j: nat | j < |s.tasks| && j != id && s.tasks[j].phase.Waiting?
      ensures Enqueue(L, s, id).tasks[j].phase.Waiting?
    {
      EnqueueLeavesWaiting(L, s, id, j);
    }
    KeyInvEvolves(s, Enqueue(L, s, id), id);
  }

  lemma UnkeyedKeyInv(L: Limits, s: State, high: bool)
    requires ValidLimits(L) && Inv(L, s) && KeyInv(s)
    ensures KeyInv(SubmitWrite(L, s, None, high))
  {
    var t := Task(None, high, None, Waiting, 0);
    var m := s.(tasks := s.tasks + [t]);
    AppendCore(L, s, t);
    forall i: nat, j: nat | i < j < |m.tasks| && SameKey(m, i, j)
      ensures SameKey(s, i, j)
    {
    }
    assert KeyInv(m);
    AdmitKeyInv(L, m, |s.tasks|);
  }

  lemma PrunedChainSettled(s: State, k: Key, i: nat)
    requires KeyInv(s) && s.tails != [] && s.tails[0].key == k
    requires s.tails[0].value < |s.tasks| && s.tasks[s.tails[0].value].key == Some(k)
    requires Settled(s.tasks[s.tails[0].value])
    requires i < |s.tasks| && s.tasks[i].key == Some(k)
    ensures Settled(s.tasks[i])
  {
    var t := s.tails[0].value;
    assert IndexOf(s.tails, k) == 0;
    assert i <= t;
    if i < t { assert SameKey(s, i, t); }
  }

  lemma KeyedTailsCover(L: Limits, s: State, k: Key, high: bool)
    requires ValidLimits(L) && Inv(L, s) && KeyInv(s) && !PrunesLive(L, s, Some(k))
    ensures TailsCover(SubmitWrite(L, s, Some(k), high))
  {
    var r := SubmitWrite(L, s, Some(k), high);
    forall i: nat | i < |r.tasks| && r.tasks[i].key.Some?
      ensures match Get(r.tails, r.tasks[i].key.value)
              case Some(t) => i <= t
              case None => Settled(r.tasks[i])
    {
      var k' := r.tasks[i].key.value;
      PruneTails(L, s, k, k');
      if k' != k && Get(r.tails, k') == None && Get(s.tails, k') != None {
        assert s.tails[0] in s.tails;
        PrunedChainSettled(s, k', i);
      }
    }
  }

  lemma KeyedLinks(L: Limits, s: State, k: Key, high: bool)
    requires ValidLimits(L) && Inv(L, s) && KeyInv(s)
    ensures var r := SubmitWrite(L, s, Some(k), high); ChainsPointBack(r) && Serialized(r) && LinksCover(r)
  {
    KeyedSubmitInv(L, s, k, high);
    var r := SubmitWrite(L, s, Some(k), high);
    forall i: nat, j: nat | i < j < |r.tasks| && SameKey(r, i, j)
      ensures match r.tasks[j].pred case Some(p) => i <= p case None => Settled(r.tasks[i])
      ensures !r.tasks[j].phase.Waiting? ==> Settled(r.tasks[i])
    {
      if j < |s.tasks| { assert SameKey(s, i, j); }
    }
  }

  /** The chain bookkeeping survives a keyed submission exactly when no live chain is pruned. */
  lemma SubmitKeyInvIff(L: Limits, s: State, k: Key, high: bool)
    requires ValidLimits(L) && Inv(L, s) && KeyInv(s)
    ensures KeyInv(SubmitWrite(L, s, Some(k), high)) <==> !PrunesLive(L, s, Some(k))
  {
    if PrunesLive(L, s, Some(k)) {
      var r := SubmitWrite(L, s, Some(k), high);
      var head := s.tails[0];
      assert head in s.tails && r.tasks[head.value] == s.tasks[head.value];
      SetDistinct(s.tails, k, |s.tasks|);
      assert IndexOf(s.tails, head.key) == 0;
      PruneTails(L, s, k, head.key);
      assert Get(r.tails, head.key) == None;
    } else {
      KeyedTailsCover(L, s, k, high);
      KeyedLinks(L, s, k, high);
    }
  }

  lemma CleanTailCover(s: State, id: nat, i: nat)
    requires Distinct(s.tails) && KeyInv(s) && Enabled(s, CleanTail(id))
    requires i < |s.tasks| && s.tasks[i].key.Some?
    ensures match Get(CleanTails(s, id).tails, s.tasks[i].key.value)
            case Some(t) => i <= t
            case None => Settled(s.tasks[i])
  {
    var k := s.tasks[id].key.value;
    DeleteGet(s.tails, k, s.tasks[i].key.value);
    if s.tasks[i].key.value == k && Get(s.tails, k) == Some(id) && i < id { assert SameKey(s, i, id); }
  }

  lemma CleanTailKeyInv(s: State, id: nat)
    requires Distinct(s.tails) && KeyInv(s) && Enabled(s, CleanTail(id))
    ensures KeyInv(CleanTails(s, id))
  {
    var r := CleanTails(s, id);
    forall i: nat, j: nat | i < j < |r.tasks| && SameKey(r, i, j) ensures SameKey(s, i, j) {}
    forall i: nat | i < |r.tasks| && r.tasks[i].key.Some?
      ensures match Get(r.tails, r.tasks[i].key.value)
              case Some(t) => i <= t
              case None => Settled(r.tasks[i])
    {
      CleanTailCover(s, id, i);
    }
  }

  lemma TickKeyInv(L: Limits, s: State)
    requires Inv(L, s) && KeyInv(s) && s.pumps > 0
    ensures KeyInv(Pump(L, s.(pumps := s.pumps - 1)))
  {
    var m := s.(pumps := s.pumps - 1);
    TickInv(L, s);
    PumpStarts(L, m);
    forall j: nat | j < |s.tasks| && j in m.queue[..Fit(L, m)]
      ensures s.tasks[j].phase.Queued?
    {
      assert j in m.queue;
    }
    KeyInvEvolves(s, Pump(L, m), |s.tasks|);
  }

  lemma FinishKeyInv(L: Limits, s: State, id: nat, ok: bool)
    requires Inv(L, s) && KeyInv(s) && id < |s.tasks| && s.tasks[id].phase.Active?
    ensures KeyInv(FinishTask(s, id, ok))
  {
    FinishCore(L, s, id, ok);
    KeyInvEvolves(s, FinishTask(s, id, ok), |s.tasks|);
  }

  lemma NextKeyInv(L: Limits, s: State, e: Event)
    requires ValidLimits(L) && Inv(L, s) && KeyInv(s) && Enabled(s, e)
    requires e.Submit? ==> !PrunesLive(L, s, e.key)
    ensures KeyInv(Next(L, s, e))
  {
    match e
    case Submit(None, high) => UnkeyedKeyInv(L, s, high);
    case Submit(Some(k), high) => SubmitKeyInvIff(L, s, k, high);
    case Admit(id) => AdmitKeyInv(L, s, id);
    case PumpTick => TickKeyInv(L, s);
    case Finish(id, ok) => FinishKeyInv(L, s, id, ok);
    case CleanTail(id) => CleanTailKeyInv(s, id);
  }

  /**
   The serialization promise over whole runs: while no submission prunes a live chain, a write leaves
   its chain only after all earlier writes of its key settled.  So at most one write of a key is queued
   or active, and the writes of a key enter the queue in submission order.
   */
  lemma {:induction false} RunSerializesKeys(L: Limits, s: State, es: seq<Event>)
    requires ValidLimits(L) && Inv(L, s) && KeyInv(s) && RunOk(L, s, es) && NoLivePrune(L, s, es)
    ensures var r := Run(L, s, es);
      && KeyInv(r)
      && forall i: nat, j: nat :: i < j < |r.tasks| && SameKey(r, i, j) ==>
           && !(InService(r.tasks[i]) && InService(r.tasks[j]))
           && (!r.tasks[j].phase.Waiting? ==> Settled(r.tasks[i]))
    decreases |es|
  {
    if es != [] {
      NextInv(L, s, es[0]);
      NextKeyInv(L, s, es[0]);
      RunSerializesKeys(L, Next(L, s, es[0]), es[1..]);
    }
  }

  // ---- Exactly when write order is kept

  /** The next write of `key`, submitted and admitted at once. */
  ghost function AfterNextWrite(L: Limits, s: State, key: Key): State
    requires Ids(s)
  {
    Enqueue(L, SubmitWrite(L, s, Some(key), false), |s.tasks|)
  }

  /** If its chain lets the next write of `key` enter at once, it does not overtake an earlier one. */
  ghost predicate NextInOrder(L: Limits, s: State, key: Key) {
    Ids(s) && (Enabled(SubmitWrite(L, s, Some(key), false), Admit(|s.tasks|)) ==> Serialized(AfterNextWrite(L, s, key)))
  }

  /** Write order holds here and along every continuation that prunes no live chain, next writes included. */
  ghost predicate KeepsOrder(L: Limits, s: State) {
    forall es: seq<Event> {:trigger RunOk(L, s, es)} :: RunOk(L, s, es) && NoLivePrune(L, s, es) ==>
      Serialized(Run(L, s, es)) && forall key :: NextInOrder(L, Run(L, s, es), key)
  }

  ghost predicate AlwaysKeepsOrder(L: Limits, s: State, es: seq<Event>)
    requires RunOk(L, s, es)
    decreases |es|
  {
    KeepsOrder(L, s) && (es == [] || AlwaysKeepsOrder(L, Next(L, s, es[0]), es[1..]))
  }

  lemma EnteringPair(s: State, id: nat, i: nat, j: nat)
    requires ChainsPointBack(s) && Serialized(s) && LinksCover(s) && Enabled(s, Admit(id))
    requires i < j < |s.tasks| && SameKey(s, i, j) && (j == id || !s.tasks[j].phase.Waiting?)
    ensures Settled(s.tasks[i])
  {
    if j == id && s.tasks[j].pred.Some? {
      var p := s.tasks[j].pred.value;
      assert LinkOk(s.tasks, j);
      if i < p { assert SameKey(s, i, p); }
    }
  }

  /** What serialization needs of the links, without the tails. */
  lemma EnteringKeepsOrder(L: Limits, s: State, id: nat)
    requires Core(L, s) && NeverStalls(L, s) && ChainsPointBack(s) && Serialized(s) && LinksCover(s)
    requires Enabled(s, Admit(id))
    ensures Serialized(Enqueue(L, s, id))
  {
    var r := Enqueue(L, s, id);
    EnqueueCore(L, s, id);
    forall i: nat, j: nat | i < j < |r.tasks| && SameKey(r, i, j) && !r.tasks[j].phase.Waiting?
      ensures Settled(r.tasks[i])
    {
      if j != id && s.tasks[j].phase.Waiting? { EnqueueLeavesWaiting(L, s, id, j); }
      EnteringPair(s, id, i, j);
    }
  }

  lemma NextWriteInOrder(L: Limits, s: State, key: Key)
    requires ValidLimits(L) && Inv(L, s) && KeyInv(s)
    ensures NextInOrder(L, s, key)
  {
    var r := SubmitWrite(L, s, Some(key), false);
    KeyedSubmitInv(L, s, key, false);
    KeyedLinks(L, s, key, false);
    if Enabled(r, Admit(|s.tasks|)) { EnteringKeepsOrder(L, r, |s.tasks|); }
  }

  lemma KeyInvKeepsOrder(L: Limits, s: State)
    requires ValidLimits(L) && Inv(L, s) && KeyInv(s)
    ensures KeepsOrder(L, s)
  {
    forall es: seq<Event> | RunOk(L, s, es) && NoLivePrune(L, s, es)
      ensures Serialized(Run(L, s, es)) && forall key :: NextInOrder(L, Run(L, s, es), key)
    {
      RunInv(L, s, es);
      RunSerializesKeys(L, s, es);
      forall key ensures NextInOrder(L, Run(L, s, es), key) { NextWriteInOrder(L, Run(L, s, es), key); }
    }
  }

  /** A submission that prunes a live chain makes that chain's key unknown. */
  lemma PrunedKeyUnknown(L: Limits, s: State, k: Key, high: bool)
    requires ValidLimits(L) && Inv(L, s) && PrunesLive(L, s, Some(k))
    ensures Get(SubmitWrite(L, s, Some(k), high).tails, s.tails[0].key) == None
    ensures s.tasks[s.tails[0].value].key == Some(s.tails[0].key)
  {
    var head := s.tails[0];
    assert head in s.tails;
    SetDistinct(s.tails, k, |s.tasks|);
    assert IndexOf(s.tails, head.key) == 0;
    PruneTails(L, s, k, head.key);
  }

  /** An unchained low write enters, whether it is queued or dropped, while an earlier write is unsettled. */
  lemma OvertakesUnsettled(L: Limits, s: State, i: nat, id: nat)
    requires Core(L, s) && NeverStalls(L, s) && i < id < |s.tasks| && SameKey(s, i, id) && !Settled(s.tasks[i])
    requires s.tasks[id].phase.Waiting? && !s.tasks[id].high
    ensures !Serialized(Enqueue(L, s, id))
  {
    var r := Enqueue(L, s, id);
    EnqueueCore(L, s, id);
    if !Full(L, s) { AdmitOnlyStarts(L, s, id); }
    assert SameKey(r, i, id);
  }

  /**
   A submission that prunes a live chain always breaks the order: the next write of the pruned key may
   enter at once and overtakes the write still pending.
   */
  lemma LivePruneBreaks(L: Limits, s: State, k: Key, high: bool)
    requires ValidLimits(L) && Inv(L, s) && PrunesLive(L, s, Some(k))
    ensures var r := SubmitWrite(L, s, Some(k), high);
      var q := SubmitWrite(L, r, Some(s.tails[0].key), false);
      Enabled(q, Admit(|r.tasks|)) && !Serialized(Enqueue(L, q, |r.tasks|))
  {
    var head := s.tails[0];
    var r := SubmitWrite(L, s, Some(k), high);
    var q := SubmitWrite(L, r, Some(head.key), false);
    PrunedKeyUnknown(L, s, k, high);
    KeyedSubmitInv(L, s, k, high);
    KeyedSubmitInv(L, r, head.key, false);
    assert r.tasks[head.value] == s.tasks[head.value] && q.tasks[head.value] == r.tasks[head.value];
    assert SameKey(q, head.value, |r.tasks|);
    OvertakesUnsettled(L, q, head.value, |r.tasks|);
  }

  lemma LivePruneLosesOrder(L: Limits, s: State, k: Key, high: bool)
    requires ValidLimits(L) && Inv(L, s) && PrunesLive(L, s, Some(k))
    ensures !KeepsOrder(L, SubmitWrite(L, s, Some(k), high))
  {
    var r := SubmitWrite(L, s, Some(k), high);
    KeyedSubmitInv(L, s, k, high);
    LivePruneBreaks(L, s, k, high);
    assert RunOk(L, r, []) && NoLivePrune(L, r, []) && Run(L, r, []) == r;
    assert !NextInOrder(L, r, s.tails[0].key);
  }

  /**
   The exact condition over whole runs: at every point the writes of each key stay in order, along every
   continuation, exactly when no submission of the run prunes a live chain.
   */
  lemma {:induction false} OrderKeptIff(L: Limits, s: State, es: seq<Event>)
    requires ValidLimits(L) && Inv(L, s) && KeyInv(s) && RunOk(L, s, es)
    ensures AlwaysKeepsOrder(L, s, es) <==> NoLivePrune(L, s, es)
    decreases |es|
  {
    KeyInvKeepsOrder(L, s);
    if es != [] {
      var e := es[0];
      NextInv(L, s, e);
      if e.Submit? && PrunesLive(L, s, e.key) {
        LivePruneLosesOrder(L, s, e.key.value, e.high);
      } else {
        NextKeyInv(L, s, e);
        OrderKeptIff(L, Next(L, s, e), es[1..]);
      }
    }
  }

  // ---- A run that breaks it, for every bound on the tails

  lemma {:induction false} RunSnoc(L: Limits, s: State, es: seq<Event>, e: Event)
    requires RunOk(L, s, es) && Ids(Run(L, s, es)) && Enabled(Run(L, s, es), e)
    ensures RunOk(L, s, es + [e]) && Run(L, s, es + [e]) == Next(L, Run(L, s, es), e)
    decreases |es|
  {
    if es == [] {
      assert [e][1..] == [] && es + [e] == [e];
      assert Run(L, Next(L, s, e), []) == Next(L, s, e);
    } else {
      assert (es + [e])[1..] == es[1..] + [e];
      RunSnoc(L, Next(L, s, es[0]), es[1..], e);
    }
  }

  /** The source's bound, MAX_PER_KEY_TAILS. */
  const MAX_PER_KEY_TAILS := 512

  function NthKey(i: nat): Key {
    seq(i + 1, _ => 'k')
  }

  lemma NthKeyDistinct(i: nat, j: nat)
    requires NthKey(i) == NthKey(j)
    ensures i == j
  {
    assert |NthKey(i)| == i + 1 && |NthKey(j)| == j + 1;
  }

  function NthWrite(i: nat): Task {
    Task(Some(NthKey(i)), false, None, Waiting, 0)
  }

  function Writes(n: nat): seq<Task> {
    seq(n, i requires 0 <= i < n => NthWrite(i))
  }

  function NthTail(i: nat): Pair<Key, nat> {
    Pair(NthKey(i), i)
  }

  function TailsFrom(from: nat, n: nat): OMap<Key, nat>
    requires from <= n
  {
    seq(n - from, i requires 0 <= i < n - from => NthTail(from + i))
  }

  /** The oldest tail left after `n` different keys. */
  function Oldest(L: Limits, n: nat): (from: nat)
    ensures from <= n
  {
    if n > L.maxTails then n - L.maxTails else 0
  }

  /** After `n` first writes of different keys, none of them admitted yet. */
  function Filled(L: Limits, n: nat): State {
    EMPTY.(tasks := Writes(n), tails := TailsFrom(Oldest(L, n), n))
  }

  lemma UnknownKey(from: nat, n: nat, k: nat)
    requires from <= n && (k < from || n <= k)
    ensures IndexOf(TailsFrom(from, n), NthKey(k)) == n - from
  {
    var m := TailsFrom(from, n);
    var i := IndexOf(m, NthKey(k));
    if i < |m| {
      assert m[i] == NthTail(from + i);
      NthKeyDistinct(from + i, k);
    }
  }

  lemma TailsSnoc(L: Limits, n: nat)
    requires ValidLimits(L)
    ensures var m := TailsFrom(Oldest(L, n), n);
      Get(m, NthKey(n)) == None && Prune(L, Set(m, NthKey(n), n)) == TailsFrom(Oldest(L, n + 1), n + 1)
  {
    var from := Oldest(L, n);
    UnknownKey(from, n, n);
    var m := TailsFrom(from, n) + [NthTail(n)];
    assert m == TailsFrom(from, n + 1);
    if |m| > L.maxTails { assert m[1..] == TailsFrom(from + 1, n + 1); }
  }

  lemma FillNext(L: Limits, n: nat)
    requires ValidLimits(L)
    ensures SubmitWrite(L, Filled(L, n), Some(NthKey(n)), false) == Filled(L, n + 1)
  {
    TailsSnoc(L, n);
    assert Writes(n) + [NthWrite(n)] == Writes(n + 1);
  }

  function NthSubmit(i: nat): Event {
    Submit(Some(NthKey(i)), false)
  }

  function Fill(n: nat): (es: seq<Event>)
    ensures |es| == n
  {
    if n == 0 then [] else Fill(n - 1) + [NthSubmit(n - 1)]
  }

  lemma FillNone(L: Limits)
    ensures Filled(L, 0) == EMPTY && RunOk(L, EMPTY, Fill(0)) && Run(L, EMPTY, Fill(0)) == EMPTY
  {
  }

  lemma {:induction false} FillRun(L: Limits, n: nat)
    requires ValidLimits(L)
    ensures RunOk(L, EMPTY, Fill(n)) && Run(L, EMPTY, Fill(n)) == Filled(L, n)
  {
    if n == 0 {
      FillNone(L);
    } else {
      FillRun(L, n - 1);
      FillNext(L, n - 1);
      RunSnoc(L, EMPTY, Fill(n - 1), NthSubmit(n - 1));
    }
  }

  /** One write too many, then the first key again: its new write has no predecessor. */
  lemma Resubmitted(L: Limits) returns (es: seq<Event>)
    requires ValidLimits(L)
    ensures RunOk(L, EMPTY, es) && |es| == L.maxTails + 2
    ensures var s := Run(L, EMPTY, es);
      && |s.tasks| == L.maxTails + 2 && s.tasks[0] == NthWrite(0) && s.tasks[L.maxTails + 1] == NthWrite(0)
      && s.queue == [] && s.active == 0
  {
    var n := L.maxTails + 1;
    FillRun(L, n);
    UnknownKey(1, n, 0);
    RunSnoc(L, EMPTY, Fill(n), NthSubmit(0));
    es := Fill(n) + [NthSubmit(0)];
    assert Writes(n)[0] == NthWrite(0);
  }

  lemma EntersIdle(L: Limits, s: State, id: nat)
    requires ValidLimits(L) && Ids(s) && id < |s.tasks| && s.tasks[id].phase.Waiting?
    requires s.queue == [] && s.active < L.concurrency
    ensures var r := Enqueue(L, s, id);
      && r.queue == [] && r.active == s.active + 1 && |r.tasks| == |s.tasks| && r.tasks[id].phase.Active?
      && r.tasks[id].key == s.tasks[id].key
      && forall j: nat :: j < |s.tasks| && j != id ==> r.tasks[j] == s.tasks[j]
  {
    var i := Insert(s, id);
    assert i.queue == [id];
    PumpStarts(L, i);
    assert i.queue[..1] == [id] && i.queue[1..] == [];
  }

  lemma TwiceInServicePruned(L: Limits, es: seq<Event>, i: nat, j: nat)
    requires ValidLimits(L) && RunOk(L, EMPTY, es)
    requires var r := Run(L, EMPTY, es);
      i < j < |r.tasks| && SameKey(r, i, j) && InService(r.tasks[i]) && InService(r.tasks[j])
    ensures !NoLivePrune(L, EMPTY, es)
  {
    EmptyInv(L);
    if NoLivePrune(L, EMPTY, es) { RunSerializesKeys(L, EMPTY, es); }
  }

  lemma BothAdmitted(L: Limits, fs: seq<Event>, last: nat) returns (es: seq<Event>)
    requires ValidLimits(L) && L.concurrency >= 2 && RunOk(L, EMPTY, fs) && last > 0
    requires var s := Run(L, EMPTY, fs);
      && |s.tasks| == last + 1 && s.tasks[0] == NthWrite(0) && s.tasks[last] == NthWrite(0)
      && s.queue == [] && s.active == 0
    ensures RunOk(L, EMPTY, es) && |es| == |fs| + 2
    ensures var r := Run(L, EMPTY, es);
      |r.tasks| == last + 1 && SameKey(r, 0, last) && r.tasks[0].phase.Active? && r.tasks[last].phase.Active?
  {
    var s := Run(L, EMPTY, fs);
    EntersIdle(L, s, 0);
    RunSnoc(L, EMPTY, fs, Admit(0));
    var m := Enqueue(L, s, 0);
    EntersIdle(L, m, last);
    RunSnoc(L, EMPTY, fs + [Admit(0)], Admit(last));
    es := fs + [Admit(0)] + [Admit(last)];
  }

  /**
   Where serialization ends, for every bound on the tails and any two or more slots: one key more than the
   bound, then the first key again, and two writes of that key run at the same time.
   */
  lemma PrunedChainRunsTwice(L: Limits) returns (es: seq<Event>)
    requires ValidLimits(L) && L.concurrency >= 2
    ensures RunOk(L, EMPTY, es) && !NoLivePrune(L, EMPTY, es) && |es| == L.maxTails + 4
    ensures var r := Run(L, EMPTY, es); var last := L.maxTails + 1;
      |r.tasks| == last + 1 && SameKey(r, 0, last) && r.tasks[0].phase.Active? && r.tasks[last].phase.Active?
  {
    es := Resubmitted(L);
    es := BothAdmitted(L, es, L.maxTails + 1);
    TwiceInServicePruned(L, es, 0, L.maxTails + 1);
  }

  /** With the extension's own limits: 4 slots, 256 places, 512 tails. */
  lemma DefaultLimitsRunTwice() returns (es: seq<Event>)
    ensures var L := Limits(4, 256, MAX_PER_KEY_TAILS);
      && ValidLimits(L) && RunOk(L, EMPTY, es) && |es| == 516
      && var r := Run(L, EMPTY, es);
         |r.tasks| == 514 && SameKey(r, 0, 513) && InService(r.tasks[0]) && InService(r.tasks[513])
  {
    es := PrunedChainRunsTwice(Limits(4, 256, MAX_PER_KEY_TAILS));
  }

  // ---- Progress: nothing is ever stuck

  lemma {:induction false} PumpLowersRank(L: Limits, s: State)
    requires ValidLimits(L) && Core(L, s)
    ensures Measure(Pump(L, s)) <= Measure(s)
    decreases |s.queue|
  {
    if s.active < L.concurrency && s.queue != [] {
      RankUpdate(s.tasks, s.queue[0], s.tasks[s.queue[0]].(phase := Active));
      StartHeadCore(L, s);
      PumpLowersRank(L, StartHead(s));
    }
  }

  lemma EnqueueLowersRank(L: Limits, s: State, id: nat)
    requires ValidLimits(L) && Inv(L, s) && id < |s.tasks| && s.tasks[id].phase.Waiting?
    ensures Measure(Enqueue(L, s, id)) < Measure(s)
  {
    var t := s.tasks[id];
    if !Full(L, s) {
      RankUpdate(s.tasks, id, t.(phase := Queued, stamp := s.arrivals));
      InsertCore(L, s, id);
      PumpLowersRank(L, Insert(s, id));
    } else if Evicts(s, id) {
      EvictLowCore(L, s);
      var m := EvictLow(s);
      var v := s.queue[FirstLow(s.tasks, s.queue)];
      RankUpdate(s.tasks, v, s.tasks[v].(phase := Dropped));
      RankUpdate(m.tasks, id, m.tasks[id].(phase := Queued, stamp := s.arrivals));
      InsertCore(L, m, id);
      PumpLowersRank(L, Insert(m, id));
    } else {
      RankUpdate(s.tasks, id, t.(phase := Dropped));
    }
  }

  /** Every admission, pump and completion uses up a finite budget. */
  lemma WorkTerminates(L: Limits, s: State, e: Event)
    requires ValidLimits(L) && Inv(L, s) && Enabled(s, e) && IsWork(e)
    ensures Measure(Next(L, s, e)) < Measure(s)
  {
    match e
    case Admit(id) => EnqueueLowersRank(L, s, id);
    case PumpTick => PumpLowersRank(L, s.(pumps := s.pumps - 1));
    case Finish(id, ok) => RankUpdate(s.tasks, id, s.tasks[id].(phase := if ok then Completed else Rejected));
  }

  lemma {:induction false} NoneActive(tasks: seq<Task>)
    requires forall i :: 0 <= i < |tasks| ==> !tasks[i].phase.Active?
    ensures Count(tasks, Active) == 0
  {
    if tasks != [] { NoneActive(tasks[..|tasks| - 1]); }
  }

  /** Follows chain links back to a write whose predecessor has settled. */
  lemma FirstWaiting(s: State, j: nat) returns (i: nat)
    requires Ids(s) && ChainsPointBack(s) && QueueExact(s.tasks, s.queue) && s.queue == []
    requires forall id: nat :: id < |s.tasks| ==> !s.tasks[id].phase.Active?
    requires j < |s.tasks| && !Settled(s.tasks[j])
    ensures Enabled(s, Admit(i))
    decreases j
  {
    assert s.tasks[j].phase.Waiting? && LinkOk(s.tasks, j);
    if s.tasks[j].pred.Some? && !Settled(s.tasks[s.tasks[j].pred.value]) {
      i := FirstWaiting(s, s.tasks[j].pred.value);
    } else {
      i := j;
    }
  }

  /** While a write is unsettled some work step is enabled, whatever became of its predecessors. */
  lemma WorkIsEnabled(L: Limits, s: State) returns (e: Event)
    requires ValidLimits(L) && Inv(L, s) && !AllSettled(s)
    ensures Enabled(s, e) && IsWork(e)
  {
    if id: nat :| id < |s.tasks| && s.tasks[id].phase.Active? {
      e := Finish(id, true);
    } else if s.queue != [] {
      NoneActive(s.tasks);
      e := PumpTick;
    } else {
      var j: nat :| j < |s.tasks| && !Settled(s.tasks[j]);
      var i := FirstWaiting(s, j);
      e := Admit(i);
    }
  }

  lemma RunCons(L: Limits, s: State, e: Event, es: seq<Event>)
    requires Ids(s) && Enabled(s, e) && RunOk(L, Next(L, s, e), es)
    ensures RunOk(L, s, [e] + es) && Run(L, s, [e] + es) == Run(L, Next(L, s, e), es)
  {
    assert ([e] + es)[1..] == es;
  }

  /** From every reachable state the queue can drain: all writes settle, rejected or dropped ones included. */
  lemma Drains(L: Limits, s: State) returns (es: seq<Event>)
    requires ValidLimits(L) && Inv(L, s)
    ensures RunOk(L, s, es) && (forall i :: 0 <= i < |es| ==> IsWork(es[i])) && AllSettled(Run(L, s, es))
    ensures |es| <= Measure(s)
    decreases Measure(s)
  {
    if AllSettled(s) {
      es := [];
    } else {
      var e := WorkIsEnabled(L, s);
      NextInv(L, s, e);
      WorkTerminates(L, s, e);
      var rest := Drains(L, Next(L, s, e));
      RunCons(L, s, e, rest);
      es := [e] + rest;
    }
  }
}
