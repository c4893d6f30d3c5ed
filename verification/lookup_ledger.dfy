/**
 One cache lookup in, one outcome out.  Each lookup owns a ledger that its handler, its watchdog timer
 and its finalizer touch in any order; all ledgers share the activity counters.
 */
module LookupLedger {

  datatype Answer = FromHandler | LookupTimeout | Unaccounted

  /**
   `armed` is a pending watchdog timer.  The rest of the second line is history: whether the handler's
   `settle` came before `open`, and what the finalizer found.
   */
  datatype Ledger = Ledger(
    wasOpened: bool, counted: bool, settled: bool, responded: bool, armed: bool,
    early: bool, finalized: bool, leftOpen: bool, timedOut: bool,
    sent: seq<Answer>, recorded: seq<string>)

  const FRESH := Ledger(false, false, false, false, false, false, false, false, false, [], [])

  datatype Counters = Counters(cacheLookups: nat, cacheLookupTimeouts: nat, cacheLookupUnaccounted: nat)

  datatype Action = Open(count: bool) | Settle(outcome: string) | Respond | Watchdog | Finalize

  function Responded(l: Ledger, a: Answer): Ledger {
    if l.responded then l else l.(responded := true, armed := false, sent := l.sent + [a])
  }

  function Settled(l: Ledger, outcome: string): Ledger {
    if l.settled then l
    else l.(settled := true, early := !l.wasOpened,
      recorded := if l.wasOpened then l.recorded + [outcome] else l.recorded)
  }

  /** A handler acts only before its finalizer; the timer only while it is armed. */
  predicate Enabled(l: Ledger, a: Action) {
    match a
    case Watchdog => l.armed
    case _ => !l.finalized
  }

  function Act(l: Ledger, a: Action): Ledger {
    match a
    case Open(count) => if l.wasOpened then l else l.(wasOpened := true, counted := count, armed := true)
    case Settle(outcome) => Settled(l, outcome)
    case Respond => Responded(l, FromHandler)
    case Watchdog =>
      if l.responded && l.settled then l.(armed := false)
      else Responded(Settled(l.(armed := false, timedOut := true), "miss"), LookupTimeout)
    case Finalize =>
      var closed := l.(armed := false, finalized := true, leftOpen := l.wasOpened && !l.settled);
      Responded(if l.wasOpened && !l.settled then Settled(closed, "miss") else closed, Unaccounted)
  }

  function Bump(l: Ledger, c: Counters, a: Action): Counters {
    match a
    case Open(count) =>
      if l.wasOpened || !count then c else c.(cacheLookups := c.cacheLookups + 1)
    case Watchdog =>
      if l.responded && l.settled then c else c.(cacheLookupTimeouts := c.cacheLookupTimeouts + 1)
    case Finalize =>
      if l.wasOpened && !l.settled then c.(cacheLookupUnaccounted := c.cacheLookupUnaccounted + 1) else c
    case _ => c
  }

  ghost predicate LedgerOk(l: Ledger) {
    && |l.sent| == (if l.responded then 1 else 0)
    && |l.recorded| == (if l.settled && !l.early then 1 else 0)
    && (l.early ==> l.settled)
    && (l.settled && !l.early ==> l.wasOpened)
    && (l.wasOpened && !l.responded ==> l.armed)
    && (l.armed ==> l.wasOpened && !l.finalized)
    && (l.finalized ==> l.responded && (l.wasOpened ==> l.settled))
    && (l.leftOpen ==> l.finalized && l.wasOpened && !l.early)
    && (l.counted ==> l.wasOpened)
    && (l.timedOut ==> !l.armed && l.wasOpened)
  }

  lemma ActKeepsLedger(l: Ledger, a: Action)
    requires LedgerOk(l) && Enabled(l, a)
    ensures LedgerOk(Act(l, a))
    ensures l.sent <= Act(l, a).sent && l.recorded <= Act(l, a).recorded
  {
  }

  // ---- Any number of lookups, any interleaving

  datatype Event = Create | On(id: nat, action: Action)

  datatype System = System(ledgers: seq<Ledger>, counters: Counters)

  const IDLE := System([], Counters(0, 0, 0))

  ghost predicate Possible(s: System, e: Event) {
    match e
    case Create => true
    case On(id, a) => id < |s.ledgers| && Enabled(s.ledgers[id], a)
  }

  ghost function Step(s: System, e: Event): System
    requires Possible(s, e)
  {
    match e
    case Create => s.(ledgers := s.ledgers + [FRESH])
    case On(id, a) => System(s.ledgers[id := Act(s.ledgers[id], a)], Bump(s.ledgers[id], s.counters, a))
  }

  ghost predicate RunOk(s: System, es: seq<Event>)
    decreases |es|
  {
    es == [] || (Possible(s, es[0]) && RunOk(Step(s, es[0]), es[1..]))
  }

  ghost function Run(s: System, es: seq<Event>): System
    requires RunOk(s, es)
    decreases |es|
  {
    if es == [] then s else Run(Step(s, es[0]), es[1..])
  }

  datatype Tally = Lookups | Timeouts | LeftOpen | Opened | Outcomes | Early

  function Weight(l: Ledger, t: Tally): nat {
    match t
    case Lookups => if l.counted then 1 else 0
    case Timeouts => if l.timedOut then 1 else 0
    case LeftOpen => if l.leftOpen then 1 else 0
    case Opened => if l.wasOpened then 1 else 0
    case Outcomes => |l.recorded|
    case Early => if l.wasOpened && l.early then 1 else 0
  }

  function Total(ledgers: seq<Ledger>, t: Tally): nat {
    if ledgers == [] then 0 else Total(ledgers[..|ledgers| - 1], t) + Weight(ledgers[|ledgers| - 1], t)
  }

  lemma {:induction false} TotalUpdate(ledgers: seq<Ledger>, i: nat, l: Ledger, t: Tally)
    requires i < |ledgers|
    ensures Total(ledgers[i := l], t) + Weight(ledgers[i], t) == Total(ledgers, t) + Weight(l, t)
  {
    var n := |ledgers| - 1;
    if i < n {
      assert ledgers[i := l][..n] == ledgers[..n][i := l];
      TotalUpdate(ledgers[..n], i, l, t);
    } else {
      assert ledgers[i := l][..n] == ledgers[..n];
    }
  }

  /** The three counters count exactly the counted, the timed out and the unaccounted lookups. */
  ghost predicate CountersExact(s: System) {
    && s.counters.cacheLookups == Total(s.ledgers, Lookups)
    && s.counters.cacheLookupTimeouts == Total(s.ledgers, Timeouts)
    && s.counters.cacheLookupUnaccounted == Total(s.ledgers, LeftOpen)
  }

  ghost predicate SystemOk(s: System) {
    && (forall i :: 0 <= i < |s.ledgers| ==> LedgerOk(s.ledgers[i]))
    && CountersExact(s)
  }

  lemma ActWeights(l: Ledger, c: Counters, a: Action)
    requires LedgerOk(l) && Enabled(l, a)
    ensures var r := Act(l, a); var b := Bump(l, c, a);
      && b.cacheLookups - c.cacheLookups == Weight(r, Lookups) - Weight(l, Lookups)
      && b.cacheLookupTimeouts - c.cacheLookupTimeouts == Weight(r, Timeouts) - Weight(l, Timeouts)
      && b.cacheLookupUnaccounted - c.cacheLookupUnaccounted == Weight(r, LeftOpen) - Weight(l, LeftOpen)
  {
  }

  lemma StepCounters(s: System, id: nat, a: Action)
    requires id < |s.ledgers| && LedgerOk(s.ledgers[id]) && Enabled(s.ledgers[id], a) && CountersExact(s)
    ensures CountersExact(Step(s, On(id, a)))
  {
    var l := s.ledgers[id];
    ActWeights(l, s.counters, a);
    TotalUpdate(s.ledgers, id, Act(l, a), Lookups);
    TotalUpdate(s.ledgers, id, Act(l, a), Timeouts);
    TotalUpdate(s.ledgers, id, Act(l, a), LeftOpen);
  }

  lemma CreateCounters(s: System)
    requires CountersExact(s)
    ensures CountersExact(Step(s, Create))
  {
    assert (s.ledgers + [FRESH])[..|s.ledgers|] == s.ledgers;
  }

  lemma StepOk(s: System, e: Event)
    requires SystemOk(s) && Possible(s, e)
    ensures SystemOk(Step(s, e))
  {
    match e
    case Create =>
      CreateCounters(s);
    case On(id, a) =>
      StepCounters(s, id, a);
      ActKeepsLedger(s.ledgers[id], a);
  }

  lemma {:induction false} RunKeepsSystem(s: System, es: seq<Event>)
    requires SystemOk(s) && RunOk(s, es)
    ensures SystemOk(Run(s, es))
    decreases |es|
  {
    if es != [] {
      StepOk(s, es[0]);
      RunKeepsSystem(Step(s, es[0]), es[1..]);
    }
  }

  /**
   After any run, every finished lookup has sent exactly one response, and has recorded exactly one
   outcome if it was opened and none otherwise, except when a `settle` preceded its `open`: exactly
   then an opened lookup ends without an outcome.
   */
  lemma FinishedLookups(es: seq<Event>)
    requires RunOk(IDLE, es)
    ensures var s := Run(IDLE, es);
      && CountersExact(s)
      && forall i :: 0 <= i < |s.ledgers| && s.ledgers[i].finalized ==>
           var l := s.ledgers[i];
           && |l.sent| == 1
           && (!l.wasOpened ==> |l.recorded| == 0)
           && (l.wasOpened ==> |l.recorded| <= 1 && (|l.recorded| == 1 <==> !l.early))
  {
    RunKeepsSystem(IDLE, es);
  }

  /** The player is never left waiting: an opened lookup without an answer has its watchdog armed. */
  lemma UnansweredIsWatched(es: seq<Event>, i: nat)
    requires RunOk(IDLE, es) && i < |Run(IDLE, es).ledgers|
    ensures var l := Run(IDLE, es).ledgers[i];
      l.wasOpened && !l.responded ==> Enabled(l, Watchdog) && Act(l, Watchdog).sent == [LookupTimeout]
  {
    RunKeepsSystem(IDLE, es);
  }

  lemma {:induction false} FinishedTotals(ledgers: seq<Ledger>)
    requires forall i :: 0 <= i < |ledgers| ==> LedgerOk(ledgers[i]) && ledgers[i].finalized
    ensures Total(ledgers, Outcomes) + Total(ledgers, Early) == Total(ledgers, Opened)
  {
    if ledgers != [] { FinishedTotals(ledgers[..|ledgers| - 1]); }
  }

  /**
   Once all lookups of a run are finished, the outcomes recorded and the early settles add up to the lookups
   opened.
   */
  lemma OutcomesBalance(es: seq<Event>)
    requires RunOk(IDLE, es)
    requires forall i :: 0 <= i < |Run(IDLE, es).ledgers| ==> Run(IDLE, es).ledgers[i].finalized
    ensures var ledgers := Run(IDLE, es).ledgers;
      Total(ledgers, Outcomes) + Total(ledgers, Early) == Total(ledgers, Opened)
  {
    RunKeepsSystem(IDLE, es);
    FinishedTotals(Run(IDLE, es).ledgers);
  }

  lemma OneMore(s: System, e: Event, es: seq<Event>)
    requires Possible(s, e) && RunOk(Step(s, e), es)
    ensures RunOk(s, [e] + es) && Run(s, [e] + es) == Run(Step(s, e), es)
  {
    assert ([e] + es)[1..] == es;
  }

  function Alone(l: Ledger, c: Counters): System {
    System([l], c)
  }

  /** A ledger settled before it is opened ends opened and answered, but without an outcome. */
  lemma EarlySettleLosesOutcome(outcome: string) returns (es: seq<Event>)
    ensures RunOk(IDLE, es)
    ensures var s := Run(IDLE, es);
      |s.ledgers| == 1 && s.ledgers[0].finalized && s.ledgers[0].wasOpened && s.ledgers[0].recorded == []
      && s.counters.cacheLookups == 1 && s.counters.cacheLookupUnaccounted == 0
  {
    var c0, c1 := Counters(0, 0, 0), Counters(1, 0, 0);
    var settled := Act(FRESH, Settle(outcome));
    var both := Act(settled, Open(true));
    var ended := Act(both, Finalize);
    assert Step(IDLE, Create) == Alone(FRESH, c0);
    assert Step(Alone(FRESH, c0), On(0, Settle(outcome))) == Alone(settled, c0);
    assert Step(Alone(settled, c0), On(0, Open(true))) == Alone(both, c1);
    assert Step(Alone(both, c1), On(0, Finalize)) == Alone(ended, c1);
    OneMore(Alone(both, c1), On(0, Finalize), []);
    OneMore(Alone(settled, c0), On(0, Open(true)), [On(0, Finalize)] + []);
    OneMore(Alone(FRESH, c0), On(0, Settle(outcome)), [On(0, Open(true))] + ([On(0, Finalize)] + []));
    es := [Create] + ([On(0, Settle(outcome))] + ([On(0, Open(true))] + ([On(0, Finalize)] + [])));
    OneMore(IDLE, Create, es[1..]);
    assert [Create] + es[1..] == es;
  }

  // ---- The ledger object

  class Activity {
    var cacheLookups: nat
    var cacheLookupTimeouts: nat
    var cacheLookupUnaccounted: nat

    ghost function Snapshot(): Counters
      reads this
    {
      Counters(cacheLookups, cacheLookupTimeouts, cacheLookupUnaccounted)
    }
  }

  class CacheLookupLedger {
    const stats: Activity
    var wasOpened: bool
    var settled: bool
    var responded: bool
    var watchdog: bool
    /** Payloads handed to sendResponse, and outcomes handed to the recorder. */
    var sent: seq<Answer>
    var recorded: seq<string>
    ghost var counted: bool
    ghost var early: bool
    ghost var finalized: bool
    ghost var leftOpen: bool
    ghost var timedOut: bool

    ghost function Snapshot(): Ledger
      reads this
    {
      Ledger(wasOpened, counted, settled, responded, watchdog, early, finalized, leftOpen, timedOut, sent, recorded)
    }

    constructor (stats: Activity)
      ensures this.stats == stats && Snapshot() == FRESH && LedgerOk(Snapshot())
    {
      this.stats := stats;
      wasOpened, settled, responded, watchdog, sent, recorded := false, false, false, false, [], [];
      counted, early, finalized, leftOpen, timedOut := false, false, false, false, false;
    }

    method RespondWith(payload: Answer)
      modifies this
      ensures Snapshot() == Responded(old(Snapshot()), payload)
    {
      if responded { return; }
      responded := true;
      if watchdog { watchdog := false; }
      sent := sent + [payload];
    }

    method SettleAs(outcome: string)
      modifies this
      ensures Snapshot() == Settled(old(Snapshot()), outcome)
    {
      if settled { return; }
      settled := true;
      early := !wasOpened;
      if !wasOpened { return; }
      recorded := recorded + [outcome];
    }

    method OpenLookup(count: bool)
      requires LedgerOk(Snapshot()) && Enabled(Snapshot(), Open(count))
      modifies this, stats
      ensures Snapshot() == Act(old(Snapshot()), Open(count)) && LedgerOk(Snapshot())
      ensures stats.Snapshot() == Bump(old(Snapshot()), old(stats.Snapshot()), Open(count))
    {
      ActKeepsLedger(Snapshot(), Open(count));
      if wasOpened { return; }
      wasOpened := true;
      counted := count;
      if count {
        stats.cacheLookups := stats.cacheLookups + 1;
      }
      watchdog := true;
    }

    method WatchdogFires()
      requires LedgerOk(Snapshot()) && Enabled(Snapshot(), Watchdog)
      modifies this, stats
      ensures Snapshot() == Act(old(Snapshot()), Watchdog) && LedgerOk(Snapshot()) && responded
      ensures stats.Snapshot() == Bump(old(Snapshot()), old(stats.Snapshot()), Watchdog)
    {
      ActKeepsLedger(Snapshot(), Watchdog);
      watchdog := false;
      if responded && settled { return; }
      timedOut := true;
      stats.cacheLookupTimeouts := stats.cacheLookupTimeouts + 1;
      SettleAs("miss");
      RespondWith(LookupTimeout);
    }

    method FinalizeLookup()
      requires LedgerOk(Snapshot()) && Enabled(Snapshot(), Finalize)
      modifies this, stats
      ensures Snapshot() == Act(old(Snapshot()), Finalize) && LedgerOk(Snapshot())
      ensures stats.Snapshot() == Bump(old(Snapshot()), old(stats.Snapshot()), Finalize)
      ensures |sent| == 1
    {
      ActKeepsLedger(Snapshot(), Finalize);
      if watchdog { watchdog := false; }
      finalized := true;
      leftOpen := wasOpened && !settled;
      if wasOpened && !settled {
        stats.cacheLookupUnaccounted := stats.cacheLookupUnaccounted + 1;
        SettleAs("miss");
      }
      RespondWith(Unaccounted);
    }
  }
}
