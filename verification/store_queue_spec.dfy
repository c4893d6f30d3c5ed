/**
 The store write queue as a step machine over values.  A task is named by its submission number; its
 promise is the `phase`.  Promise reactions and microtasks are separate steps, so a run of events is
 any interleaving the event loop could produce.
 */
module StoreQueueSpec {
  import opened OrderedMap

  type Key = string

  datatype Phase = Waiting | Queued | Active | Completed | Rejected | Dropped

  /** `pred` is the chain link this write was attached to (`None`: an already resolved promise). */
  datatype Task = Task(key: Option<Key>, high: bool, pred: Option<nat>, phase: Phase, stamp: nat)

  datatype Limits = Limits(concurrency: nat, depth: nat, maxTails: nat)

  /** resolveConcurrency and resolveMaxQueueDepth clamp to these bounds; MAX_PER_KEY_TAILS is 512. */
  ghost predicate ValidLimits(L: Limits) {
    1 <= L.concurrency <= L.depth && 1 <= L.maxTails
  }

  datatype State = State(
    tasks: seq<Task>,
    queue: seq<nat>,
    active: nat,
    tails: OMap<Key, nat>,
    arrivals: nat,
    pumps: nat,
    completed: nat,
    rejected: nat,
    dropped: nat)

  const EMPTY := State([], [], 0, [], 0, 0, 0, 0, 0)

  datatype Event =
    | Submit(key: Option<Key>, high: bool)
    | Admit(id: nat)
    | PumpTick
    | Finish(id: nat, ok: bool)
    | CleanTail(id: nat)

  predicate Settled(t: Task) {
    t.phase.Completed? || t.phase.Rejected? || t.phase.Dropped?
  }

  predicate InService(t: Task) {
    t.phase.Queued? || t.phase.Active?
  }

  ghost predicate InRange(queue: seq<nat>, n: nat) {
    forall i :: 0 <= i < |queue| ==> queue[i] < n
  }

  ghost predicate Ids(s: State) {
    InRange(s.queue, |s.tasks|)
  }

  /** waitQueue.findIndex((entry) => entry.priority !== "high"), with "none" read as the length. */
  function FirstLow(tasks: seq<Task>, queue: seq<nat>): (at: nat)
    requires InRange(queue, |tasks|)
    ensures at <= |queue|
    ensures forall i :: 0 <= i < at ==> tasks[queue[i]].high
    ensures at < |queue| ==> !tasks[queue[at]].high
  {
    if queue == [] || !tasks[queue[0]].high then 0
    else 1 + FirstLow(tasks, queue[1..])
  }

  function SetPhase(s: State, id: nat, p: Phase): State
    requires id < |s.tasks|
  {
    s.(tasks := s.tasks[id := s.tasks[id].(phase := p)])
  }

  /** Hands the head of the queue to a free slot. */
  function StartHead(s: State): State
    requires Ids(s) && s.queue != []
  {
    SetPhase(s, s.queue[0], Active).(queue := s.queue[1..], active := s.active + 1)
  }

  function Pump(L: Limits, s: State): (r: State)
    requires Ids(s)
    ensures Ids(r)
    decreases |s.queue|
  {
    if s.active < L.concurrency && s.queue != [] then Pump(L, StartHead(s)) else s
  }

  function Insert(s: State, id: nat): (r: State)
    requires Ids(s) && id < |s.tasks|
    ensures Ids(r)
  {
    var t := s.tasks[id];
    var at := if t.high then FirstLow(s.tasks, s.queue) else |s.queue|;
    s.(tasks := s.tasks[id := t.(phase := Queued, stamp := s.arrivals)],
       queue := s.queue[..at] + [id] + s.queue[at..],
       arrivals := s.arrivals + 1)
  }

  function Drop(s: State, id: nat): State
    requires id < |s.tasks|
  {
    SetPhase(s, id, Dropped).(dropped := s.dropped + 1)
  }

  predicate Full(L: Limits, s: State) {
    |s.queue| + s.active >= L.depth
  }

  predicate Evicts(s: State, id: nat)
    requires Ids(s) && id < |s.tasks|
  {
    s.tasks[id].high && FirstLow(s.tasks, s.queue) < |s.queue|
  }

  /** Makes room by dropping the oldest queued low write. */
  function EvictLow(s: State): (r: State)
    requires Ids(s) && FirstLow(s.tasks, s.queue) < |s.queue|
    ensures Ids(r) && |r.tasks| == |s.tasks|
  {
    var at := FirstLow(s.tasks, s.queue);
    Drop(s, s.queue[at]).(queue := s.queue[..at] + s.queue[at + 1..])
  }

  /** enqueueUnbounded for write `id`. */
  function Enqueue(L: Limits, s: State, id: nat): State
    requires Ids(s) && id < |s.tasks|
  {
    if !Full(L, s) then Pump(L, Insert(s, id))
    else if Evicts(s, id) then Pump(L, Insert(EvictLow(s), id))
    else Drop(s, id)
  }

  function Prune(L: Limits, tails: OMap<Key, nat>): OMap<Key, nat> {
    if |tails| > L.maxTails then tails[|tails| - L.maxTails..] else tails
  }

  /** enqueueStoreWrite: a keyed write joins its key's chain, an unkeyed one enters directly. */
  function SubmitWrite(L: Limits, s: State, key: Option<Key>, high: bool): State
    requires Ids(s)
  {
    var id := |s.tasks|;
    match key
    case None =>
      Enqueue(L, s.(tasks := s.tasks + [Task(None, high, None, Waiting, 0)]), id)
    case Some(k) =>
      s.(tasks := s.tasks + [Task(key, high, Get(s.tails, k), Waiting, 0)],
         tails := Prune(L, Set(s.tails, k, id)))
  }

  function FinishTask(s: State, id: nat, ok: bool): State
    requires id < |s.tasks|
  {
    SetPhase(s, id, if ok then Completed else Rejected).(
      active := if s.active >= 1 then s.active - 1 else 0,
      completed := s.completed + if ok then 1 else 0,
      rejected := s.rejected + if ok then 0 else 1,
      pumps := s.pumps + 1)
  }

  function CleanTails(s: State, id: nat): State
    requires id < |s.tasks| && s.tasks[id].key.Some?
  {
    var k := s.tasks[id].key.value;
    if Get(s.tails, k) == Some(id) then s.(tails := Delete(s.tails, k)) else s
  }

  ghost predicate Enabled(s: State, e: Event) {
    match e
    case Submit(_, _) => true
    case Admit(id) =>
      && id < |s.tasks| && s.tasks[id].phase.Waiting?
      && (s.tasks[id].pred.Some? ==>
            s.tasks[id].pred.value < |s.tasks| && Settled(s.tasks[s.tasks[id].pred.value]))
    case PumpTick => s.pumps > 0
    case Finish(id, _) => id < |s.tasks| && s.tasks[id].phase.Active?
    case CleanTail(id) => id < |s.tasks| && s.tasks[id].key.Some? && Settled(s.tasks[id])
  }

  ghost function Next(L: Limits, s: State, e: Event): State
    requires Ids(s) && Enabled(s, e)
  {
    match e
    case Submit(key, high) => SubmitWrite(L, s, key, high)
    case Admit(id) => Enqueue(L, s, id)
    case PumpTick => Pump(L, s.(pumps := s.pumps - 1))
    case Finish(id, ok) => FinishTask(s, id, ok)
    case CleanTail(id) => CleanTails(s, id)
  }

  // ---- What every state of every run satisfies

  function Count(tasks: seq<Task>, p: Phase): nat {
    if tasks == [] then 0
    else Count(tasks[..|tasks| - 1], p) + if tasks[|tasks| - 1].phase == p then 1 else 0
  }

  /** High before low, and first come first served within a class. */
  predicate Before(a: Task, b: Task) {
    (a.high && !b.high) || (a.high == b.high && a.stamp < b.stamp)
  }

  ghost predicate QueueOrdered(tasks: seq<Task>, queue: seq<nat>)
    requires InRange(queue, |tasks|)
  {
    forall i, j :: 0 <= i < j < |queue| ==> Before(tasks[queue[i]], tasks[queue[j]])
  }

  /** The queue lists exactly the queued tasks. */
  ghost predicate QueueExact(tasks: seq<Task>, queue: seq<nat>)
    requires InRange(queue, |tasks|)
  {
    && (forall i :: 0 <= i < |queue| ==> tasks[queue[i]].phase.Queued?)
    && (forall id: nat :: id < |tasks| && tasks[id].phase.Queued? ==> id in queue)
  }

  ghost predicate StampsPast(tasks: seq<Task>, queue: seq<nat>, arrivals: nat)
    requires InRange(queue, |tasks|)
  {
    forall i :: 0 <= i < |queue| ==> tasks[queue[i]].stamp < arrivals
  }

  /** The counters and the slots agree with the fates of the submitted tasks. */
  ghost predicate CountsExact(s: State) {
    && |s.queue| == Count(s.tasks, Queued)
    && s.active == Count(s.tasks, Active)
    && s.completed == Count(s.tasks, Completed)
    && s.rejected == Count(s.tasks, Rejected)
    && s.dropped == Count(s.tasks, Dropped)
  }

  ghost predicate Bounded(L: Limits, s: State) {
    s.active <= L.concurrency && |s.queue| + s.active <= L.depth
  }

  ghost predicate NeverStalls(L: Limits, s: State) {
    s.queue != [] && s.active < L.concurrency ==> s.pumps > 0
  }

  /** A chain link names an earlier write of the same key. */
  ghost predicate LinkOk(tasks: seq<Task>, j: nat)
    requires j < |tasks|
  {
    tasks[j].pred.Some? ==>
      tasks[j].pred.value < j && tasks[j].key.Some? && tasks[tasks[j].pred.value].key == tasks[j].key
  }

  ghost predicate ChainsPointBack(s: State) {
    forall j: nat {:trigger LinkOk(s.tasks, j)} :: j < |s.tasks| ==> LinkOk(s.tasks, j)
  }

  ghost predicate TailsOk(L: Limits, s: State) {
    && Distinct(s.tails)
    && |s.tails| <= L.maxTails
    && (forall p :: p in s.tails ==> p.value < |s.tasks| && s.tasks[p.value].key == Some(p.key))
  }

  /** The wait queue and its counters; a pump in progress may still owe `NeverStalls`. */
  ghost predicate Core(L: Limits, s: State) {
    && Ids(s) && QueueOrdered(s.tasks, s.queue) && QueueExact(s.tasks, s.queue)
    && StampsPast(s.tasks, s.queue, s.arrivals) && CountsExact(s) && Bounded(L, s)
  }

  ghost predicate Inv(L: Limits, s: State) {
    Core(L, s) && NeverStalls(L, s) && ChainsPointBack(s) && TailsOk(L, s)
  }

  // ---- Per-key serialization

  ghost predicate SameKey(s: State, i: nat, j: nat)
    requires i < |s.tasks| && j < |s.tasks|
  {
    s.tasks[i].key.Some? && s.tasks[i].key == s.tasks[j].key
  }

  /** A write leaves its chain only after every earlier write of its key has settled. */
  ghost predicate Serialized(s: State) {
    forall i: nat, j: nat {:trigger SameKey(s, i, j)} ::
      i < j < |s.tasks| && SameKey(s, i, j) && !s.tasks[j].phase.Waiting? ==> Settled(s.tasks[i])
  }

  /** A chain link follows the key's latest earlier write, or none of them is pending. */
  ghost predicate LinksCover(s: State)
    requires ChainsPointBack(s)
  {
    forall i: nat, j: nat {:trigger SameKey(s, i, j)} :: i < j < |s.tasks| && SameKey(s, i, j) ==>
      match s.tasks[j].pred
      case Some(p) => i <= p
      case None => Settled(s.tasks[i])
  }

  /** perKeyTail knows the latest write of every key that still has pending writes. */
  ghost predicate TailsCover(s: State) {
    forall i: nat :: i < |s.tasks| && s.tasks[i].key.Some? ==>
      match Get(s.tails, s.tasks[i].key.value)
      case Some(t) => i <= t
      case None => Settled(s.tasks[i])
  }

  ghost predicate KeyInv(s: State) {
    ChainsPointBack(s) && Serialized(s) && LinksCover(s) && TailsCover(s)
  }

  /** The submission makes `prunePerKeyTails` forget a chain whose last write is still pending. */
  ghost predicate PrunesLive(L: Limits, s: State, key: Option<Key>) {
    && key.Some?
    && |Set(s.tails, key.value, |s.tasks|)| > L.maxTails
    && s.tails != [] && s.tails[0].value < |s.tasks| && !Settled(s.tasks[s.tails[0].value])
  }

  // ---- Runs

  ghost predicate RunOk(L: Limits, s: State, es: seq<Event>)
    decreases |es|
  {
    es == [] || (Ids(s) && Enabled(s, es[0]) && RunOk(L, Next(L, s, es[0]), es[1..]))
  }

  ghost function Run(L: Limits, s: State, es: seq<Event>): State
    requires RunOk(L, s, es)
    decreases |es|
  {
    if es == [] then s else Run(L, Next(L, s, es[0]), es[1..])
  }

  /** No submission of the run drops a live chain. */
  ghost predicate NoLivePrune(L: Limits, s: State, es: seq<Event>)
    requires RunOk(L, s, es)
    decreases |es|
  {
    es == [] ||
    (&& (es[0].Submit? ==> !PrunesLive(L, s, es[0].key))
     && NoLivePrune(L, Next(L, s, es[0]), es[1..]))
  }

  ghost predicate AllSettled(s: State) {
    forall i :: 0 <= i < |s.tasks| ==> Settled(s.tasks[i])
  }

  ghost predicate IsWork(e: Event) {
    e.Admit? || e.PumpTick? || e.Finish?
  }

  function Rank(p: Phase): nat {
    match p
    case Waiting => 4
    case Queued => 3
    case Active => 2
    case _ => 0
  }

  function TotalRank(tasks: seq<Task>): nat {
    if tasks == [] then 0 else TotalRank(tasks[..|tasks| - 1]) + Rank(tasks[|tasks| - 1].phase)
  }

  function Measure(s: State): nat {
    TotalRank(s.tasks) + s.pumps
  }

  /** How one step may change the history: identities stay, settled tasks stay, nothing returns to waiting. */
  ghost predicate Evolves(s: State, r: State) {
    && |s.tasks| <= |r.tasks|
    && forall i :: 0 <= i < |s.tasks| ==>
         && r.tasks[i].key == s.tasks[i].key && r.tasks[i].high == s.tasks[i].high
         && r.tasks[i].pred == s.tasks[i].pred
         && (Settled(s.tasks[i]) ==> r.tasks[i] == s.tasks[i])
         && Rank(r.tasks[i].phase) <= Rank(s.tasks[i].phase)
  }
}
