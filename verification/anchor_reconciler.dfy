/**
 Reconciling a tab's committed anchor with the consensus of its playhead signals: which signals take
 part, when the consensus is promoted over the anchor, and what holds on every run of evaluations.
 */
module AnchorReconciler {
  import opened OrderedMap
  import opened WeightedMedian

  const SIGNAL_FRESH_MS := 3_000
  const MAX_AHEAD := 10
  const DIVERGENCE_SEGMENTS := 3
  const DWELL_MS := 500
  const MIN_INTERVAL_MS := 800

  /** What the rest of the extension writes on the tab; a clock field that is unset is 0. */
  datatype Inputs = Inputs(
    hasSegments: bool,
    anchor: Option<int>,
    predicted: Option<int>, predictedAt: int,
    observed: Option<int>, observedAt: int,
    velocity: Option<int>, velocityAt: int,
    seekChurnUntil: int, scrubbingUntil: int)

  predicate Fresh(at: int, now: int) {
    now - at < SIGNAL_FRESH_MS
  }

  predicate IsIndex(o: Option<int>) {
    o.Some? && o.value >= 0
  }

  predicate TakesPredicted(t: Inputs, now: int) {
    && IsIndex(t.predicted) && Fresh(t.predictedAt, now)
    && !(t.anchor.Some? && t.anchor.value > 10 && t.predicted.value <= 2)
  }

  /** The observed index is judged against the fresh prediction, else the anchor, else nothing. */
  function Reference(t: Inputs, now: int): Option<int> {
    if t.predicted.Some? && Fresh(t.predictedAt, now) then t.predicted else t.anchor
  }

  predicate TakesObserved(t: Inputs, now: int) {
    && IsIndex(t.observed) && Fresh(t.observedAt, now)
    && match Reference(t, now)
       case None => true
       case Some(r) =>
         && t.observed.value <= r + MAX_AHEAD
         && !(t.observed.value < r - MAX_AHEAD && now < t.seekChurnUntil)
  }

  predicate TakesVelocity(t: Inputs, now: int) {
    IsIndex(t.velocity) && Fresh(t.velocityAt, now)
  }

  function Maybe(take: bool, source: Source, index: Option<int>, weight: nat): seq<Signal> {
    if take && index.Some? then [Signal(source, index.value, weight)] else []
  }

  function Signals(t: Inputs, now: int): seq<Signal> {
    Maybe(IsIndex(t.anchor), FromAnchor, t.anchor, 2) +
    Maybe(TakesPredicted(t, now), FromPredictor, t.predicted, 3) +
    Maybe(TakesObserved(t, now), FromObserved, t.observed, 4) +
    Maybe(TakesVelocity(t, now), FromVelocity, t.velocity, 2)
  }

  /** The consensus; with no signal but the anchor itself there is none. */
  function Target(t: Inputs, now: int): Option<int> {
    var signals := Signals(t, now);
    if signals == [] || (|signals| == 1 && signals[0].source == FromAnchor) then None else Some(Median(signals))
  }

  // ---- One evaluation

  datatype Reason = NoPlaylist | NoSignals | NoAnchor | WithinThreshold | BackwardDuringChurn | StaleTimelineZero
    | DwellStarted | DwellPending | PromoteCooldown | DivergenceDwell

  datatype Decision = Decision(promote: bool, target: Option<int>, divergence: Option<nat>, reason: Reason)

  /** The two clock fields of the lane: when the divergence began (0: it has not) and the last promotion. */
  datatype Dwell = Dwell(since: int, lastPromoteAt: int)

  function ChurnUntil(t: Inputs): int {
    if t.seekChurnUntil > t.scrubbingUntil then t.seekChurnUntil else t.scrubbingUntil
  }

  /** Why the consensus cannot count against the anchor, judged without the dwell clock. */
  function Objection(t: Inputs, now: int): Option<Reason> {
    if !t.hasSegments then Some(NoPlaylist)
    else match Target(t, now)
      case None => Some(NoSignals)
      case Some(target) =>
        if t.anchor.None? then Some(NoAnchor)
        else if Abs(target - t.anchor.value) <= DIVERGENCE_SEGMENTS then Some(WithinThreshold)
        else if target >= t.anchor.value - DIVERGENCE_SEGMENTS then None
        else if now < ChurnUntil(t) then Some(BackwardDuringChurn)
        else if t.anchor.value > 10 && target <= 2 then Some(StaleTimelineZero)
        else None
  }

  function DwellReason(d: Dwell, now: int): Reason {
    if d.since == 0 then DwellStarted
    else if now - d.since < DWELL_MS then DwellPending
    else if now - d.lastPromoteAt < MIN_INTERVAL_MS then PromoteCooldown
    else DivergenceDwell
  }

  function ReasonFor(t: Inputs, d: Dwell, now: int): Reason {
    match Objection(t, now)
    case Some(r) => r
    case None => DwellReason(d, now)
  }

  function SinceAfter(reason: Reason, d: Dwell, now: int): int {
    match reason
    case NoPlaylist => d.since
    case NoAnchor => d.since
    case NoSignals => 0
    case WithinThreshold => 0
    case BackwardDuringChurn => 0
    case StaleTimelineZero => 0
    case DwellStarted => now
    case _ => d.since
  }

  function Decide(t: Inputs, d: Dwell, now: int): Decision {
    var reason := ReasonFor(t, d, now);
    var target := if t.hasSegments then Target(t, now) else None;
    var divergence := if target.Some? && t.anchor.Some? then Some(Abs(target.value - t.anchor.value)) else None;
    Decision(reason == NoAnchor || reason == DivergenceDwell, target, divergence, reason)
  }

  /** What a promotion over an existing anchor never does. */
  lemma PromotionIsSafe(t: Inputs, d: Dwell, now: int)
    requires Decide(t, d, now).promote
    ensures Decide(t, d, now).target.Some?
    ensures t.anchor.Some? ==>
      var target, anchor := Decide(t, d, now).target.value, t.anchor.value;
      && Abs(target - anchor) > DIVERGENCE_SEGMENTS
      && (target < anchor ==> now >= t.seekChurnUntil && now >= t.scrubbingUntil)
      && !(anchor > 10 && target <= 2)
  {
  }

  // ---- Every run of evaluations, each promotion marked

  datatype Turn = Turn(input: Inputs, now: int)

  /** One turn of the lane: evaluate and, on a promotion, mark it. */
  function After(d: Dwell, t: Turn): Dwell {
    var decision := Decide(t.input, d, t.now);
    if decision.promote then Dwell(0, t.now) else d.(since := SinceAfter(decision.reason, d, t.now))
  }

  /** The lane's clock fields after a run on a new tab. */
  function StateAfter(ts: seq<Turn>): Dwell {
    if ts == [] then Dwell(0, 0) else After(StateAfter(ts[..|ts| - 1]), ts[|ts| - 1])
  }

  function DecisionAt(ts: seq<Turn>, k: nat): Decision
    requires k < |ts|
  {
    Decide(ts[k].input, StateAfter(ts[..k]), ts[k].now)
  }

  ghost predicate Clocked(ts: seq<Turn>) {
    && (forall i :: 0 <= i < |ts| ==> ts[i].now >= MIN_INTERVAL_MS)
    && (forall i, j :: 0 <= i < j < |ts| ==> ts[i].now < ts[j].now)
  }

  /** The turn saw the consensus more than the threshold away from the anchor, with nothing against it. */
  predicate Counts(t: Turn) {
    Objection(t.input, t.now) == None
  }

  /** A turn without a playlist decides nothing and leaves the dwell clock alone. */
  predicate Silent(t: Turn) {
    !t.input.hasSegments
  }

  ghost predicate SteadyTurn(ts: seq<Turn>, i: nat) {
    i < |ts| ==> (Silent(ts[i]) || Counts(ts[i])) && !DecisionAt(ts, i).promote
  }

  /** From turn `j` on, every turn with a playlist counted and none was promoted. */
  ghost predicate Steady(ts: seq<Turn>, j: nat) {
    && j < |ts| && Counts(ts[j])
    && forall i {:trigger SteadyTurn(ts, i)} :: j <= i < |ts| ==> SteadyTurn(ts, i)
  }

  lemma PrefixDecision(ts: seq<Turn>, n: nat, k: nat)
    requires k < n <= |ts|
    ensures DecisionAt(ts[..n], k) == DecisionAt(ts, k)
  {
    assert ts[..n][..k] == ts[..k];
  }

  lemma PrefixTurn(ts: seq<Turn>, i: nat)
    requires i + 1 < |ts|
    ensures SteadyTurn(ts[..|ts| - 1], i) == SteadyTurn(ts, i)
  {
    PrefixDecision(ts, |ts| - 1, i);
  }

  lemma SteadyShrinks(ts: seq<Turn>, j: nat)
    requires j + 1 < |ts| && Steady(ts, j)
    ensures Steady(ts[..|ts| - 1], j) && SteadyTurn(ts, |ts| - 1)
  {
    var front := ts[..|ts| - 1];
    forall i: nat | j <= i < |front| ensures SteadyTurn(front, i) {
      assert SteadyTurn(ts, i);
      PrefixTurn(ts, i);
    }
    assert SteadyTurn(ts, |ts| - 1);
  }

  lemma SteadyGrows(ts: seq<Turn>, j: nat)
    requires j + 1 < |ts| && Steady(ts[..|ts| - 1], j) && SteadyTurn(ts, |ts| - 1)
    ensures Steady(ts, j)
  {
    forall i: nat | j <= i < |ts| ensures SteadyTurn(ts, i) {
      if i < |ts| - 1 {
        assert SteadyTurn(ts[..|ts| - 1], i);
        PrefixTurn(ts, i);
      }
    }
  }

  lemma SteadyStart(ts: seq<Turn>)
    requires ts != []
    ensures Steady(ts, |ts| - 1) <==> Counts(ts[|ts| - 1]) && !DecisionAt(ts, |ts| - 1).promote
  {
    var n := |ts| - 1;
    if Counts(ts[n]) && !DecisionAt(ts, n).promote {
      forall i: nat | n <= i < |ts| ensures SteadyTurn(ts, i) { assert i == n; }
    } else {
      assert Counts(ts[n]) ==> !SteadyTurn(ts, n);
    }
  }

  lemma LastDecision(ts: seq<Turn>)
    requires ts != []
    ensures DecisionAt(ts, |ts| - 1) == Decide(ts[|ts| - 1].input, StateAfter(ts[..|ts| - 1]), ts[|ts| - 1].now)
    ensures StateAfter(ts) == After(StateAfter(ts[..|ts| - 1]), ts[|ts| - 1])
  {
  }

  /** The dwell clock, when running, was started by a turn from which on the run is steady. */
  lemma {:induction false} SinceIsSteady(ts: seq<Turn>)
    requires Clocked(ts)
    ensures StateAfter(ts).since != 0 ==>
      exists j :: 0 <= j < |ts| && Steady(ts, j) && ts[j].now == StateAfter(ts).since
  {
    if ts != [] && StateAfter(ts).since != 0 {
      var n := |ts| - 1;
      var before := StateAfter(ts[..n]);
      SinceIsSteady(ts[..n]);
      LastDecision(ts);
      SteadyStart(ts);
      if StateAfter(ts).since == before.since && before.since != 0 {
        var j :| 0 <= j < n && Steady(ts[..n], j) && ts[..n][j].now == before.since;
        SteadyGrows(ts, j);
        assert Steady(ts, j);
      }
    }
  }

  lemma {:induction false} SinceBound(ts: seq<Turn>)
    requires Clocked(ts)
    ensures StateAfter(ts).since == 0 || exists j :: 0 <= j < |ts| && ts[j].now == StateAfter(ts).since
  {
    SinceIsSteady(ts);
  }

  lemma UnpromotedSince(d: Dwell, t: Turn)
    requires (Silent(t) || Counts(t)) && !Decide(t.input, d, t.now).promote
    ensures After(d, t).since == if Counts(t) && d.since == 0 then t.now else d.since
  {
    var r := ReasonFor(t.input, d, t.now);
    assert After(d, t).since == SinceAfter(r, d, t.now);
    if Counts(t) {
      assert r == DwellReason(d, t.now);
    } else {
      assert r == NoPlaylist;
    }
  }

  /** A steady turn keeps a running dwell clock, and a counting one starts a stopped clock. */
  lemma SteadyTurnSince(ts: seq<Turn>)
    requires ts != [] && SteadyTurn(ts, |ts| - 1)
    ensures var before := StateAfter(ts[..|ts| - 1]).since; var since := StateAfter(ts).since;
      && (before != 0 ==> since == before)
      && (before == 0 && Counts(ts[|ts| - 1]) ==> since == ts[|ts| - 1].now)
  {
    LastDecision(ts);
    UnpromotedSince(StateAfter(ts[..|ts| - 1]), ts[|ts| - 1]);
  }

  /** Every turn from which on the run is steady started or found the dwell clock running. */
  lemma {:induction false} SteadyIsSince(ts: seq<Turn>, j: nat)
    requires Clocked(ts) && Steady(ts, j)
    ensures StateAfter(ts).since != 0 && StateAfter(ts).since <= ts[j].now
  {
    var n := |ts| - 1;
    assert SteadyTurn(ts, n);
    SteadyTurnSince(ts);
    if j < n {
      SteadyShrinks(ts, j);
      SteadyIsSince(ts[..n], j);
    } else {
      SinceBound(ts[..n]);
    }
  }

  /** The cooldown clock is no earlier than any promotion. */
  lemma {:induction false} PromotionBound(ts: seq<Turn>, i: nat)
    requires Clocked(ts) && i < |ts| && DecisionAt(ts, i).promote
    ensures ts[i].now <= StateAfter(ts).lastPromoteAt
  {
    var n := |ts| - 1;
    LastDecision(ts);
    if i < n {
      PrefixDecision(ts, n, i);
      PromotionBound(ts[..n], i);
    }
  }

  ghost predicate PromotedAt(ts: seq<Turn>, i: nat, now: int) {
    i < |ts| && DecisionAt(ts, i).promote && ts[i].now == now
  }

  /** The cooldown clock, once set, holds the time of a promotion. */
  lemma {:induction false} PromotionWitness(ts: seq<Turn>)
    requires Clocked(ts)
    ensures StateAfter(ts).lastPromoteAt == 0 || exists i :: PromotedAt(ts, i, StateAfter(ts).lastPromoteAt)
  {
    if ts != [] {
      var n := |ts| - 1;
      LastDecision(ts);
      if DecisionAt(ts, n).promote {
        assert PromotedAt(ts, n, StateAfter(ts).lastPromoteAt);
      } else {
        PromotionWitness(ts[..n]);
        if StateAfter(ts).lastPromoteAt != 0 {
          var i :| PromotedAt(ts[..n], i, StateAfter(ts).lastPromoteAt);
          PrefixDecision(ts, n, i);
          assert PromotedAt(ts, i, StateAfter(ts).lastPromoteAt);
        }
      }
    }
  }

  /** A steady stretch that began at least DWELL_MS ago leads up to turn `k`. */
  ghost predicate DwelledBefore(ts: seq<Turn>, k: nat) {
    k < |ts| && exists j :: 0 <= j < k && Steady(ts[..k], j) && ts[k].now - ts[j].now >= DWELL_MS
  }

  ghost predicate CooledBefore(ts: seq<Turn>, k: nat) {
    k < |ts| && forall i: nat, at :: i < k && PromotedAt(ts, i, at) ==> ts[k].now - at >= MIN_INTERVAL_MS
  }

  lemma ClockedPrefix(ts: seq<Turn>, k: nat)
    requires Clocked(ts) && k <= |ts|
    ensures Clocked(ts[..k])
  {
  }

  lemma DwellClockIff(ts: seq<Turn>, k: nat)
    requires Clocked(ts) && k < |ts|
    ensures DwelledBefore(ts, k) <==>
      StateAfter(ts[..k]).since != 0 && ts[k].now - StateAfter(ts[..k]).since >= DWELL_MS
  {
    var front := ts[..k];
    ClockedPrefix(ts, k);
    if DwelledBefore(ts, k) {
      var j :| 0 <= j < k && Steady(front, j) && ts[k].now - ts[j].now >= DWELL_MS;
      SteadyIsSince(front, j);
    }
    if StateAfter(front).since != 0 && ts[k].now - StateAfter(front).since >= DWELL_MS {
      SinceIsSteady(front);
      var j :| 0 <= j < k && Steady(front, j) && front[j].now == StateAfter(front).since;
    }
  }

  lemma CooldownClockIff(ts: seq<Turn>, k: nat)
    requires Clocked(ts) && k < |ts|
    ensures CooledBefore(ts, k) <==> ts[k].now - StateAfter(ts[..k]).lastPromoteAt >= MIN_INTERVAL_MS
  {
    var front := ts[..k];
    var last := StateAfter(front).lastPromoteAt;
    ClockedPrefix(ts, k);
    PromotionWitness(front);
    if CooledBefore(ts, k) && last != 0 {
      var i :| PromotedAt(front, i, last);
      PrefixDecision(ts, k, i);
      assert PromotedAt(ts, i, last);
    }
    if ts[k].now - last >= MIN_INTERVAL_MS {
      forall i: nat, at | i < k && PromotedAt(ts, i, at) ensures ts[k].now - at >= MIN_INTERVAL_MS {
        PrefixDecision(ts, k, i);
        PromotionBound(front, i);
      }
    }
  }

  /**
   On every run, turn `k` promotes the consensus over an existing anchor exactly when it counts, a counting
   turn at least 500 ms earlier began a stretch in which every turn with a playlist counted and none
   promoted, and no promotion happened in the last 800 ms.
   */
  lemma DwellPromotionIff(ts: seq<Turn>, k: nat)
    requires Clocked(ts) && k < |ts|
    ensures DecisionAt(ts, k).reason == DivergenceDwell <==>
      Counts(ts[k]) && DwelledBefore(ts, k) && CooledBefore(ts, k)
  {
    DwellClockIff(ts, k);
    CooldownClockIff(ts, k);
  }

  /**
   The dwell needs no evaluation in between: two counting turns 500 ms apart promote, with nothing but a
   turn without a playlist, or nothing at all, between them.
   */
  lemma SilenceFillsDwell(a: Turn, silent: Turn, b: Turn)
    requires Counts(a) && Silent(silent) && Counts(b)
    requires MIN_INTERVAL_MS <= a.now < silent.now < b.now && b.now - a.now >= DWELL_MS
    ensures DecisionAt([a, silent, b], 2).reason == DivergenceDwell
    ensures DecisionAt([a, b], 1).reason == DivergenceDwell
  {
    var ts := [a, silent, b];
    assert ts[..2] == [a, silent] && [a, silent][..1] == [a] && [a][..0] == [] && [a, b][..1] == [a];
    assert After(Dwell(0, 0), a) == Dwell(a.now, 0);
    assert StateAfter([a]) == Dwell(a.now, 0);
    assert After(Dwell(a.now, 0), silent) == Dwell(a.now, 0);
    assert StateAfter([a, silent]) == Dwell(a.now, 0);
    assert DwellReason(Dwell(a.now, 0), b.now) == DivergenceDwell;
  }

  /** A tab anchored at 100 whose fresh prediction says 110. */
  const DIVERGED := Inputs(true, Some(100), Some(110), 1_000, None, 0, None, 0, 0, 0)

  lemma SumTwo(a: Signal, b: Signal, m: Measure)
    ensures Sum([a, b], m) == Value(a, m) + Value(b, m)
  {
    assert [a, b][1..] == [b] && [b][1..] == [];
    assert Sum([b], m) == Value(b, m);
  }

  lemma DivergedCounts(now: int)
    requires now - 1_000 < SIGNAL_FRESH_MS
    ensures Counts(Turn(DIVERGED, now))
  {
    var a, p := Signal(FromAnchor, 100, 2), Signal(FromPredictor, 110, 3);
    var signals := Signals(DIVERGED, now);
    assert signals == [a, p];
    MedianIsMedian(signals);
    SumTwo(a, p, All);
    SumTwo(a, p, UpTo(100));
  }

  /** For instance: two evaluations at 1000 and 1500, and a silent one at 1200. */
  lemma SilentDwellRun()
    ensures DecisionAt([Turn(DIVERGED, 1_000), Turn(DIVERGED.(hasSegments := false), 1_200),
                        Turn(DIVERGED, 1_500)], 2).reason == DivergenceDwell
  {
    DivergedCounts(1_000);
    DivergedCounts(1_500);
    SilenceFillsDwell(Turn(DIVERGED, 1_000), Turn(DIVERGED.(hasSegments := false), 1_200), Turn(DIVERGED, 1_500));
  }

  /** Without an anchor the consensus is promoted at once, by any turn that has one. */
  lemma NoAnchorPromotionIff(ts: seq<Turn>, k: nat)
    requires k < |ts|
    ensures DecisionAt(ts, k).promote && DecisionAt(ts, k).reason != DivergenceDwell
       <==> ts[k].input.hasSegments && ts[k].input.anchor.None? && Target(ts[k].input, ts[k].now).Some?
  {
  }

  // ---- The tab's state

  class TabState {
    var input: Inputs
    var divergenceSince: int
    var lastPromoteAt: int

    constructor (t: Inputs)
      ensures input == t && Clocks() == Dwell(0, 0)
    {
      input, divergenceSince, lastPromoteAt := t, 0, 0;
    }

    ghost function Clocks(): Dwell
      reads this
    {
      Dwell(divergenceSince, lastPromoteAt)
    }

    method CollectSignals(now: int) returns (signals: seq<Signal>)
      ensures signals == Signals(input, now)
    {
      signals := [];
      if IsIndex(input.anchor) {
        signals := signals + [Signal(FromAnchor, input.anchor.value, 2)];
      }
      if IsIndex(input.predicted) && Fresh(input.predictedAt, now) {
        if !(input.anchor.Some? && input.anchor.value > 10 && input.predicted.value <= 2) {
          signals := signals + [Signal(FromPredictor, input.predicted.value, 3)];
        }
      }
      if IsIndex(input.observed) && Fresh(input.observedAt, now) {
        var included := true;
        var reference := Reference(input, now);
        if reference.Some? {
          if input.observed.value > reference.value + MAX_AHEAD { included := false; }
          if input.observed.value < reference.value - MAX_AHEAD && now < input.seekChurnUntil { included := false; }
        }
        if included { signals := signals + [Signal(FromObserved, input.observed.value, 4)]; }
      }
      if IsIndex(input.velocity) && Fresh(input.velocityAt, now) {
        signals := signals + [Signal(FromVelocity, input.velocity.value, 2)];
      }
    }

    method ResolveTarget(now: int) returns (target: Option<int>)
      ensures target == Target(input, now)
    {
      var signals := CollectSignals(now);
      if |signals| == 0 { return None; }
      if |signals| == 1 && signals[0].source == FromAnchor { return None; }
      target := WeightedMedianIndex(signals);
    }

    /** `evaluateAnchorReconciliation` */
    method Evaluate(now: int) returns (decision: Decision)
      modifies `divergenceSince
      ensures decision == Decide(input, old(Clocks()), now)
      ensures divergenceSince == SinceAfter(decision.reason, old(Clocks()), now)
    {
      if !input.hasSegments { return Decision(false, None, None, NoPlaylist); }
      var found := ResolveTarget(now);
      if found.None? {
        divergenceSince := 0;
        return Decision(false, None, None, NoSignals);
      }
      if input.anchor.None? { return Decision(true, found, None, NoAnchor); }
      var target, anchor := found.value, input.anchor.value;
      var divergence := Abs(target - anchor);
      if divergence <= DIVERGENCE_SEGMENTS {
        divergenceSince := 0;
        return Decision(false, found, Some(divergence), WithinThreshold);
      }
      if target < anchor - DIVERGENCE_SEGMENTS {
        if now < ChurnUntil(input) {
          divergenceSince := 0;
          return Decision(false, found, Some(divergence), BackwardDuringChurn);
        }
        if anchor > 10 && target <= 2 {
          divergenceSince := 0;
          return Decision(false, found, Some(divergence), StaleTimelineZero);
        }
      }
      if divergenceSince == 0 {
        divergenceSince := now;
        return Decision(false, found, Some(divergence), DwellStarted);
      }
      if now - divergenceSince < DWELL_MS { return Decision(false, found, Some(divergence), DwellPending); }
      if now - lastPromoteAt < MIN_INTERVAL_MS { return Decision(false, found, Some(divergence), PromoteCooldown); }
      return Decision(true, found, Some(divergence), DivergenceDwell);
    }

    /** `markAnchorReconciliationPromoted` */
    method MarkPromoted(now: int)
      modifies `divergenceSince, `lastPromoteAt
      ensures Clocks() == Dwell(0, now)
    {
      lastPromoteAt := now;
      divergenceSince := 0;
    }

    /** `maybeReconcileAnchor`: one turn of the lane. */
    method Reconcile(now: int) returns (decision: Decision)
      modifies `divergenceSince, `lastPromoteAt
      ensures decision == Decide(input, old(Clocks()), now)
      ensures Clocks() == After(old(Clocks()), Turn(input, now))
    {
      decision := Evaluate(now);
      if decision.promote { MarkPromoted(now); }
    }
  }
}
