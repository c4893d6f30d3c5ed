/**
 Lookups that collapse onto an in-flight prefetch or chunk write.  Each waiter parks under its cache key
 until a store, a wire transfer, a rejection or its own timer answers it, whichever comes first.
 */
module CollapseWaiters {

  type Key = string

  /** What a waiter was answered with: the served item, or nothing. */
  datatype Answer = Served(item: string) | Nothing

  /**
   `consumer` waiters hold an in-flight consumer, which `attached` tracks; `answers` and `releases` log
   the calls of the promise's resolve function and of the consumer's release.
   */
  datatype Waiter = Waiter(key: Key, consumer: bool, timer: bool, attached: bool, answers: seq<Answer>, releases: nat)

  type Table = map<Key, seq<nat>>

  datatype State = State(table: Table, waiters: seq<Waiter>)

  predicate IsPending(w: Waiter) {
    w.answers == []
  }

  // ---- Specification

  function Released(w: Waiter): Waiter {
    if w.attached then w.(attached := false, releases := w.releases + 1) else w
  }

  function Answered(w: Waiter, a: Answer): Waiter {
    Released(w).(answers := w.answers + [a], timer := false)
  }

  function AnswerAll(waiters: seq<Waiter>, ids: seq<nat>, a: Answer): seq<Waiter> {
    seq(|waiters|, i requires 0 <= i < |waiters| => if i in ids then Answered(waiters[i], a) else waiters[i])
  }

  /** resolvePendingInflightLookups and rejectPendingInflightLookups, which differ in the answer. */
  function SettleKey(s: State, key: Key, a: Answer): State {
    if key in s.table then State(s.table - {key}, AnswerAll(s.waiters, s.table[key], a)) else s
  }

  function Remove(list: seq<nat>, id: nat): seq<nat> {
    if list == [] then []
    else if list[0] == id then list[1..]
    else [list[0]] + Remove(list[1..], id)
  }

  /** removePendingResolver: unlists one waiter and drops a list that becomes empty. */
  function Unlist(table: Table, key: Key, id: nat): Table {
    if key !in table then table
    else
      var list := Remove(table[key], id);
      if list == [] then table - {key} else table[key := list]
  }

  function TimeOut(s: State, id: nat): State
    requires id < |s.waiters|
  {
    State(Unlist(s.table, s.waiters[id].key, id), s.waiters[id := Answered(s.waiters[id], Nothing)])
  }

  function Join(s: State, key: Key, consumer: bool): State {
    State(s.table[key := (if key in s.table then s.table[key] else []) + [|s.waiters|]],
          s.waiters + [Waiter(key, consumer, true, consumer, [], 0)])
  }

  // ---- Invariant

  ghost predicate NoRepeats(ids: seq<nat>) {
    forall i, j :: 0 <= i < j < |ids| ==> ids[i] != ids[j]
  }

  ghost predicate ListOk(waiters: seq<Waiter>, key: Key, ids: seq<nat>) {
    && ids != [] && NoRepeats(ids)
    && forall i :: 0 <= i < |ids| ==>
         ids[i] < |waiters| && IsPending(waiters[ids[i]]) && waiters[ids[i]].key == key
  }

  ghost predicate Listed(s: State, id: nat)
    requires id < |s.waiters|
  {
    IsPending(s.waiters[id]) ==> s.waiters[id].key in s.table && id in s.table[s.waiters[id].key]
  }

  /** Answered at most once, and the consumer released exactly when answered. */
  ghost predicate WaiterOk(w: Waiter) {
    && |w.answers| <= 1
    && (w.timer <==> IsPending(w))
    && (w.attached <==> w.consumer && IsPending(w))
    && w.releases == if w.consumer && !IsPending(w) then 1 else 0
  }

  ghost predicate Valid(s: State) {
    && (forall k :: k in s.table ==> ListOk(s.waiters, k, s.table[k]))
    && (forall id: nat {:trigger Listed(s, id)} :: id < |s.waiters| ==> Listed(s, id))
    && (forall id :: 0 <= id < |s.waiters| ==> WaiterOk(s.waiters[id]))
  }

  /** Waiters keep their identity and their answers. */
  ghost predicate Advances(s: State, r: State) {
    && |s.waiters| <= |r.waiters|
    && forall id :: 0 <= id < |s.waiters| ==>
         r.waiters[id].key == s.waiters[id].key && s.waiters[id].answers <= r.waiters[id].answers
  }

  /** A store, wire or rejection of a key answers all its waiters once, and no other waiter. */
  lemma SettleKeyOk(s: State, key: Key, a: Answer)
    requires Valid(s)
    ensures var r := SettleKey(s, key, a);
      && Valid(r) && Advances(s, r) && |r.waiters| == |s.waiters|
      && forall id :: 0 <= id < |s.waiters| ==>
           r.waiters[id] == if IsPending(s.waiters[id]) && s.waiters[id].key == key
                            then Answered(s.waiters[id], a) else s.waiters[id]
  {
    var r := SettleKey(s, key, a);
    forall id: nat | id < |s.waiters|
      ensures r.waiters[id] == if IsPending(s.waiters[id]) && s.waiters[id].key == key
                               then Answered(s.waiters[id], a) else s.waiters[id]
    {
      assert Listed(s, id);
    }
    forall id: nat | id < |r.waiters| ensures Listed(r, id) { assert Listed(s, id); }
    forall k | k in r.table ensures ListOk(r.waiters, k, r.table[k]) {
      assert ListOk(s.waiters, k, s.table[k]);
    }
  }

  lemma {:induction false} RemoveOk(list: seq<nat>, id: nat)
    requires NoRepeats(list) && id in list
    ensures NoRepeats(Remove(list, id)) && forall x :: x in Remove(list, id) <==> x in list && x != id
  {
    if list[0] != id {
      RemoveOk(list[1..], id);
      var rest := Remove(list[1..], id);
      forall j | 0 <= j < |rest| ensures rest[j] != list[0] { assert rest[j] in rest; }
    }
  }

  lemma TimeOutLists(s: State, id: nat, k: Key)
    requires Valid(s) && id < |s.waiters| && s.waiters[id].timer && k in TimeOut(s, id).table
    ensures ListOk(TimeOut(s, id).waiters, k, TimeOut(s, id).table[k])
  {
    var key := s.waiters[id].key;
    assert Listed(s, id) && ListOk(s.waiters, key, s.table[key]);
    RemoveOk(s.table[key], id);
    if k == key {
      var list := Remove(s.table[key], id);
      forall i | 0 <= i < |list| ensures list[i] in s.table[key] && list[i] != id { assert list[i] in list; }
    } else {
      assert ListOk(s.waiters, k, s.table[k]);
    }
  }

  /** A fired timer answers exactly its own waiter, releases its consumer, and leaves no empty list. */
  lemma TimeOutOk(s: State, id: nat)
    requires Valid(s) && id < |s.waiters| && s.waiters[id].timer
    ensures var r := TimeOut(s, id);
      && Valid(r) && Advances(s, r) && r.waiters == s.waiters[id := Answered(s.waiters[id], Nothing)]
  {
    var r := TimeOut(s, id);
    var key := s.waiters[id].key;
    assert Listed(s, id);
    RemoveOk(s.table[key], id);
    forall k | k in r.table ensures ListOk(r.waiters, k, r.table[k]) { TimeOutLists(s, id, k); }
    forall x: nat | x < |r.waiters| ensures Listed(r, x) { assert Listed(s, x); }
  }

  lemma JoinOk(s: State, key: Key, consumer: bool)
    requires Valid(s)
    ensures var r := Join(s, key, consumer); Valid(r) && Advances(s, r)
  {
    var r := Join(s, key, consumer);
    forall k | k in r.table ensures ListOk(r.waiters, k, r.table[k]) {
      if k in s.table { assert ListOk(s.waiters, k, s.table[k]); }
    }
    forall id: nat | id < |r.waiters| ensures Listed(r, id) {
      if id < |s.waiters| { assert Listed(s, id); }
    }
  }

  // ---- Runs

  datatype Event =
    | JoinEvent(key: Key, consumer: bool)
    | SettleEvent(key: Key, answer: Answer)
    | TimerEvent(id: nat)

  ghost predicate Possible(s: State, e: Event) {
    e.TimerEvent? ==> e.id < |s.waiters| && s.waiters[e.id].timer
  }

  ghost function Step(s: State, e: Event): State
    requires Possible(s, e)
  {
    match e
    case JoinEvent(key, consumer) => Join(s, key, consumer)
    case SettleEvent(key, answer) => SettleKey(s, key, answer)
    case TimerEvent(id) => TimeOut(s, id)
  }

  ghost predicate RunOk(s: State, es: seq<Event>)
    decreases |es|
  {
    es == [] || (Possible(s, es[0]) && RunOk(Step(s, es[0]), es[1..]))
  }

  ghost function Run(s: State, es: seq<Event>): State
    requires RunOk(s, es)
    decreases |es|
  {
    if es == [] then s else Run(Step(s, es[0]), es[1..])
  }

  /**
   Whichever of store, wire, rejection or timeout comes first: in every run each waiter is answered at
   most once and keeps that answer, its consumer is released exactly with the answer, and the table
   holds no empty list.
   */
  lemma {:induction false} RunOkKeeps(s: State, es: seq<Event>)
    requires Valid(s) && RunOk(s, es)
    ensures Valid(Run(s, es)) && Advances(s, Run(s, es))
    decreases |es|
  {
    if es != [] {
      match es[0] {
        case JoinEvent(key, consumer) => JoinOk(s, key, consumer);
        case SettleEvent(key, answer) => SettleKeyOk(s, key, answer);
        case TimerEvent(id) => TimeOutOk(s, id);
      }
      RunOkKeeps(Step(s, es[0]), es[1..]);
    }
  }

  /** No waiter is lost: an unanswered one has its timer running, and firing it answers it. */
  lemma PendingHasTimer(es: seq<Event>, id: nat)
    requires RunOk(State(map[], []), es) && id < |Run(State(map[], []), es).waiters|
    ensures var s := Run(State(map[], []), es);
      IsPending(s.waiters[id]) ==>
        && Possible(s, TimerEvent(id))
        && Step(s, TimerEvent(id)).waiters[id].answers == [Nothing]
  {
    RunOkKeeps(State(map[], []), es);
  }

  // ---- The table object

  class PendingResolvers {
    var pendingWriteResolvers: Table
    /** Every waiter ever registered, in order. */
    var waiters: seq<Waiter>

    ghost function Snapshot(): State
      reads this
    {
      State(pendingWriteResolvers, waiters)
    }

    constructor ()
      ensures Valid(Snapshot()) && Snapshot() == State(map[], [])
    {
      pendingWriteResolvers, waiters := map[], [];
    }

    method Register(key: Key, consumer: bool) returns (id: nat)
      requires Valid(Snapshot())
      modifies this
      ensures Valid(Snapshot()) && Snapshot() == Join(old(Snapshot()), key, consumer) && id == |old(waiters)|
    {
      JoinOk(Snapshot(), key, consumer);
      id := |waiters|;
      waiters := waiters + [Waiter(key, consumer, true, consumer, [], 0)];
      if key !in pendingWriteResolvers {
        pendingWriteResolvers := pendingWriteResolvers[key := []];
      }
      pendingWriteResolvers := pendingWriteResolvers[key := pendingWriteResolvers[key] + [id]];
      assert pendingWriteResolvers == Join(old(Snapshot()), key, consumer).table;
      assert Snapshot() == Join(old(Snapshot()), key, consumer);
    }

    method SettlePending(key: Key, answer: Answer)
      requires Valid(Snapshot())
      modifies this
      ensures Valid(Snapshot()) && Snapshot() == SettleKey(old(Snapshot()), key, answer)
    {
      SettleKeyOk(Snapshot(), key, answer);
      if key !in pendingWriteResolvers { return; }
      var resolvers := pendingWriteResolvers[key];
      assert ListOk(waiters, key, resolvers);
      pendingWriteResolvers := pendingWriteResolvers - {key};
      for i := 0 to |resolvers|
        invariant waiters == AnswerAll(old(waiters), resolvers[..i], answer)
        modifies `waiters
      {
        assert resolvers[..i + 1] == resolvers[..i] + [resolvers[i]];
        var id := resolvers[i];
        waiters := waiters[id := waiters[id].(timer := false)];
        waiters := waiters[id := Released(waiters[id])];
        waiters := waiters[id := Released(waiters[id]).(answers := waiters[id].answers + [answer])];
      }
      assert resolvers[..|resolvers|] == resolvers;
    }

    method TimerFires(id: nat)
      requires Valid(Snapshot()) && id < |waiters| && waiters[id].timer
      modifies this
      ensures Valid(Snapshot()) && Snapshot() == TimeOut(old(Snapshot()), id)
    {
      TimeOutOk(Snapshot(), id);
      var key := waiters[id].key;
      if key in pendingWriteResolvers {
        var list := Remove(pendingWriteResolvers[key], id);
        pendingWriteResolvers :=
          if list == [] then pendingWriteResolvers - {key} else pendingWriteResolvers[key := list];
      }
      waiters := waiters[id := Answered(waiters[id], Nothing)];
    }
  }
}
