/** The store write queue as the background worker runs it, proved against its step machine. */
module StoreQueue {
  import opened OrderedMap
  import opened StoreQueueSpec
  import opened StoreQueueProofs

  /** Math.max(0, n) */
  function AtLeastZero(n: int): nat {
    if n < 0 then 0 else n
  }

  class StoreWriteQueue {
    const limits: Limits
    /** One promise per submitted write, in submission order. */
    var promises: seq<Task>
    var waitQueue: seq<nat>
    var active: nat
    var perKeyTail: OMap<Key, nat>
    var completedTasks: nat
    var rejectedTasks: nat
    var droppedTasks: nat
    var arrivals: nat
    /** Pumps handed to queueMicrotask and not yet run. */
    var pendingPumps: nat

    ghost function Snapshot(): State
      reads this
    {
      State(promises, waitQueue, active, perKeyTail, arrivals, pendingPumps,
            completedTasks, rejectedTasks, droppedTasks)
    }

    ghost predicate Valid()
      reads this
    {
      ValidLimits(limits) && Inv(limits, Snapshot())
    }

    constructor (limits: Limits)
      requires ValidLimits(limits)
      ensures Valid() && this.limits == limits && Snapshot() == EMPTY
    {
      this.limits := limits;
      promises, waitQueue, active, perKeyTail := [], [], 0, [];
      completedTasks, rejectedTasks, droppedTasks, arrivals, pendingPumps := 0, 0, 0, 0, 0;
      new;
      EmptyInv(limits);
    }

    method PumpWaitQueue()
      requires Ids(Snapshot())
      modifies this
      ensures Snapshot() == Pump(limits, old(Snapshot()))
    {
      while active < limits.concurrency && waitQueue != []
        invariant Ids(Snapshot())
        invariant Pump(limits, Snapshot()) == Pump(limits, old(Snapshot()))
        decreases |waitQueue|
      {
        var next := waitQueue[0];
        waitQueue := waitQueue[1..];
        active := active + 1;
        promises := promises[next := promises[next].(phase := Active)];
      }
    }

    method EvictQueuedLow(lowIndex: nat)
      requires Ids(Snapshot()) && lowIndex == FirstLow(promises, waitQueue) < |waitQueue|
      modifies this
      ensures Snapshot() == EvictLow(old(Snapshot()))
    {
      var evicted := waitQueue[lowIndex];
      waitQueue := waitQueue[..lowIndex] + waitQueue[lowIndex + 1..];
      droppedTasks := droppedTasks + 1;
      promises := promises[evicted := promises[evicted].(phase := Dropped)];
    }

    method PushEntry(id: nat)
      requires Ids(Snapshot()) && id < |promises|
      modifies this
      ensures Snapshot() == Insert(old(Snapshot()), id)
    {
      var at := if promises[id].high then FirstLow(promises, waitQueue) else |waitQueue|;
      waitQueue := waitQueue[..at] + [id] + waitQueue[at..];
      promises := promises[id := promises[id].(phase := Queued, stamp := arrivals)];
      arrivals := arrivals + 1;
    }

    method EnqueueUnbounded(id: nat)
      requires Ids(Snapshot()) && id < |promises|
      modifies this
      ensures Snapshot() == Enqueue(limits, old(Snapshot()), id)
    {
      if |waitQueue| + active >= limits.depth {
        var lowIndex := if promises[id].high then FirstLow(promises, waitQueue) else |waitQueue|;
        if lowIndex < |waitQueue| {
          EvictQueuedLow(lowIndex);
        } else {
          droppedTasks := droppedTasks + 1;
          promises := promises[id := promises[id].(phase := Dropped)];
          return;
        }
      }
      PushEntry(id);
      PumpWaitQueue();
    }

    method PrunePerKeyTails()
      modifies this`perKeyTail
      ensures perKeyTail == Prune(limits, old(perKeyTail))
    {
      if |perKeyTail| <= limits.maxTails { return; }
      var excess := |perKeyTail| - limits.maxTails;
      var removed := 0;
      while removed < excess
        invariant 0 <= removed <= excess
        invariant perKeyTail == old(perKeyTail)[removed..]
      {
        perKeyTail := perKeyTail[1..];
        removed := removed + 1;
      }
    }

    method EnqueueStoreWrite(key: Option<Key>, high: bool) returns (id: nat)
      requires Valid()
      modifies this
      ensures Valid() && id == |old(promises)|
      ensures Snapshot() == Next(limits, old(Snapshot()), Submit(key, high))
    {
      NextInv(limits, Snapshot(), Submit(key, high));
      id := |promises|;
      match key
      case None => SubmitUnkeyed(high);
      case Some(k) => SubmitKeyed(k, high);
    }

    method SubmitUnkeyed(high: bool)
      requires Ids(Snapshot())
      modifies this
      ensures Snapshot() == SubmitWrite(limits, old(Snapshot()), None, high)
    {
      promises := promises + [Task(None, high, None, Waiting, 0)];
      EnqueueUnbounded(|promises| - 1);
    }

    method SubmitKeyed(key: Key, high: bool)
      requires Ids(Snapshot())
      modifies this
      ensures Snapshot() == SubmitWrite(limits, old(Snapshot()), Some(key), high)
    {
      var id := |promises|;
      promises := promises + [Task(Some(key), high, Get(perKeyTail, key), Waiting, 0)];
      perKeyTail := Set(perKeyTail, key, id);
      PrunePerKeyTails();
    }

    /** The reaction on a settled predecessor link. */
    method PredecessorSettled(id: nat)
      requires Valid() && Enabled(Snapshot(), Admit(id))
      modifies this
      ensures Valid() && Snapshot() == Next(limits, old(Snapshot()), Admit(id))
    {
      NextInv(limits, Snapshot(), Admit(id));
      EnqueueUnbounded(id);
    }

    method RunPendingPump()
      requires Valid() && Enabled(Snapshot(), PumpTick)
      modifies this
      ensures Valid() && Snapshot() == Next(limits, old(Snapshot()), PumpTick)
    {
      NextInv(limits, Snapshot(), PumpTick);
      pendingPumps := pendingPumps - 1;
      PumpWaitQueue();
    }

    /** The `finish` callback of a started write. */
    method FinishWrite(id: nat, ok: bool)
      requires Valid() && Enabled(Snapshot(), Event.Finish(id, ok))
      modifies this
      ensures Valid() && Snapshot() == Next(limits, old(Snapshot()), Event.Finish(id, ok))
      ensures active == old(active) - 1
    {
      NextInv(limits, Snapshot(), Event.Finish(id, ok));
      FinishCore(limits, Snapshot(), id, ok);
      active := AtLeastZero(active - 1);
      if ok {
        completedTasks := completedTasks + 1;
      } else {
        rejectedTasks := rejectedTasks + 1;
      }
      promises := promises[id := promises[id].(phase := if ok then Completed else Rejected)];
      pendingPumps := pendingPumps + 1;
    }

    /** The `finally` callback that retires a chain nobody extended. */
    method RetireTail(id: nat)
      requires Valid() && Enabled(Snapshot(), CleanTail(id))
      modifies this
      ensures Valid() && Snapshot() == Next(limits, old(Snapshot()), CleanTail(id))
    {
      NextInv(limits, Snapshot(), CleanTail(id));
      var k := promises[id].key.value;
      if Get(perKeyTail, k) == Some(id) {
        perKeyTail := Delete(perKeyTail, k);
      }
    }
  }
}
