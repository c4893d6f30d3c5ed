/**
 Which quality rung a tab is on: the state machine fed by the media playlists it loads, and exactly when
 a run of observations makes it switch.
 */
module RungHysteresis {
  import opened OrderedMap

  type Label = string

  const MIN_HOLD_MS := 8_000
  const CONFIRM_UPGRADE := 2
  const CONFIRM_DOWNGRADE := 3
  const WARM_CONFIRM_SAMPLES := 3
  const WARM_CONFIRM_MS := 10_000

  /** Bandwidth by rung; a missing or zero one orders nothing. */
  type Matrix = map<Label, nat>

  function Bandwidth(matrix: Matrix, l: Label): nat {
    if l in matrix then matrix[l] else 0
  }

  predicate IsDowngrade(matrix: Matrix, from: Label, to: Label) {
    Bandwidth(matrix, from) > 0 && 0 < Bandwidth(matrix, to) < Bandwidth(matrix, from)
  }

  function Required(matrix: Matrix, from: Label, to: Label): nat {
    if IsDowngrade(matrix, from, to) then CONFIRM_DOWNGRADE else CONFIRM_UPGRADE
  }

  datatype Rung = Rung(active: Option<Label>, lastSwitchAt: int, pending: Option<Label>, samples: nat)

  const UNSET := Rung(None, 0, None, 0)

  datatype Observation = Observation(seen: Label, now: int)

  /** A downgrade seen while the last switch is being held is ignored. */
  predicate Held(matrix: Matrix, r: Rung, o: Observation) {
    r.active.Some? && IsDowngrade(matrix, r.active.value, o.seen) && o.now < r.lastSwitchAt + MIN_HOLD_MS
  }

  /** One observation, behind the warm-recovery gate. */
  function Observe(matrix: Matrix, r: Rung, o: Observation): Rung {
    if r.active.None? then Rung(Some(o.seen), o.now, None, 0)
    else if r.active.value == o.seen then r.(pending := None, samples := 0)
    else if Held(matrix, r, o) then r
    else if r.pending != Some(o.seen) then r.(pending := Some(o.seen), samples := 1)
    else if r.samples + 1 < Required(matrix, r.active.value, o.seen) then r.(samples := r.samples + 1)
    else Rung(Some(o.seen), o.now, None, 0)
  }

  // ---- Every run, from any state the tab may be in

  function After(matrix: Matrix, start: Rung, os: seq<Observation>): Rung {
    if os == [] then start else Observe(matrix, After(matrix, start, os[..|os| - 1]), os[|os| - 1])
  }

  function Before(matrix: Matrix, start: Rung, os: seq<Observation>, k: nat): Rung
    requires k <= |os|
  {
    After(matrix, start, os[..k])
  }

  /** Observation `k` changed the active rung. */
  predicate Switches(matrix: Matrix, start: Rung, os: seq<Observation>, k: nat) {
    k < |os| && Before(matrix, start, os, k + 1).active != Before(matrix, start, os, k).active
  }

  /** Observation `k` speaks for another rung than the active one and is not held back. */
  predicate Counted(matrix: Matrix, start: Rung, os: seq<Observation>, k: nat) {
    k < |os| && var r := Before(matrix, start, os, k);
      r.active.Some? && r.active.value != os[k].seen && !Held(matrix, r, os[k])
  }

  /** The votes a run begins with. */
  function Carried(start: Rung, j: nat, to: Label): nat {
    if j == 0 && start.pending == Some(to) then start.samples else 0
  }

  /** How many of the observations from `j` on count for `to`, with what the start had pending. */
  function Votes(matrix: Matrix, start: Rung, os: seq<Observation>, j: nat, to: Label): nat {
    if |os| <= j then Carried(start, j, to)
    else
      var n := |os| - 1;
      Votes(matrix, start, os[..n], j, to) + if Counted(matrix, start, os, n) && os[n].seen == to then 1 else 0
  }

  /** Observation `m` neither confirms the active rung, nor counts for another rung than `to`, nor switches. */
  predicate QuietAt(matrix: Matrix, start: Rung, os: seq<Observation>, m: nat, to: Label) {
    m < |os| && !Switches(matrix, start, os, m) && Before(matrix, start, os, m).active.Some?
    && Before(matrix, start, os, m).active.value != os[m].seen
    && (Counted(matrix, start, os, m) ==> os[m].seen == to)
  }

  ghost predicate Quiet(matrix: Matrix, start: Rung, os: seq<Observation>, j: nat, to: Label) {
    && j <= |os|
    && forall m {:trigger QuietAt(matrix, start, os, m, to)} ::
         j <= m < |os| ==> QuietAt(matrix, start, os, m, to)
  }

  lemma PrefixSame(matrix: Matrix, start: Rung, os: seq<Observation>, k: nat, to: Label)
    requires k + 1 < |os|
    ensures var front := os[..|os| - 1];
      && Before(matrix, start, front, k) == Before(matrix, start, os, k)
      && Counted(matrix, start, front, k) == Counted(matrix, start, os, k)
      && QuietAt(matrix, start, front, k, to) == QuietAt(matrix, start, os, k, to)
  {
    var front := os[..|os| - 1];
    assert front[..k] == os[..k] && front[..k + 1] == os[..k + 1];
  }

  lemma LastStep(matrix: Matrix, start: Rung, os: seq<Observation>)
    requires os != []
    ensures Before(matrix, start, os, |os|) == Observe(matrix, Before(matrix, start, os, |os| - 1), os[|os| - 1])
    ensures Before(matrix, start, os, |os|) == After(matrix, start, os)
    ensures Before(matrix, start, os, |os| - 1) == After(matrix, start, os[..|os| - 1])
  {
    assert os[..|os|] == os;
  }

  lemma QuietShrinks(matrix: Matrix, start: Rung, os: seq<Observation>, j: nat, to: Label)
    requires j < |os| && Quiet(matrix, start, os, j, to)
    ensures Quiet(matrix, start, os[..|os| - 1], j, to) && QuietAt(matrix, start, os, |os| - 1, to)
  {
    var front := os[..|os| - 1];
    assert QuietAt(matrix, start, os, |os| - 1, to);
    forall m: nat | j <= m < |front| ensures QuietAt(matrix, start, front, m, to) {
      assert QuietAt(matrix, start, os, m, to);
      PrefixSame(matrix, start, os, m, to);
    }
  }

  lemma QuietGrows(matrix: Matrix, start: Rung, os: seq<Observation>, j: nat, to: Label)
    requires j < |os| && Quiet(matrix, start, os[..|os| - 1], j, to) && QuietAt(matrix, start, os, |os| - 1, to)
    ensures Quiet(matrix, start, os, j, to)
  {
    var front := os[..|os| - 1];
    forall m: nat | j <= m < |os| ensures QuietAt(matrix, start, os, m, to) {
      if m < |front| {
        assert QuietAt(matrix, start, front, m, to);
        PrefixSame(matrix, start, os, m, to);
      }
    }
  }

  /** The pending counter is an upper bound on the votes of any quiet stretch that reaches the present. */
  lemma {:induction false} VotesBound(matrix: Matrix, start: Rung, os: seq<Observation>, j: nat, to: Label)
    requires Quiet(matrix, start, os, j, to)
    ensures var r := After(matrix, start, os);
      Votes(matrix, start, os, j, to) <= if r.pending == Some(to) then r.samples else 0
  {
    if j < |os| {
      QuietShrinks(matrix, start, os, j, to);
      VotesBound(matrix, start, os[..|os| - 1], j, to);
      LastStep(matrix, start, os);
    }
  }

  ghost predicate Backed(matrix: Matrix, start: Rung, os: seq<Observation>, j: nat, to: Label, votes: nat) {
    Quiet(matrix, start, os, j, to) && Votes(matrix, start, os, j, to) == votes
  }

  /** The pending counter is backed by a quiet stretch with exactly that many votes. */
  lemma {:induction false} PendingBacked(matrix: Matrix, start: Rung, os: seq<Observation>, to: Label)
    requires After(matrix, start, os).pending == Some(to)
    ensures exists j :: Backed(matrix, start, os, j, to, After(matrix, start, os).samples)
  {
    if os == [] {
      assert Backed(matrix, start, os, 0, to, start.samples);
    } else {
      var n := |os| - 1;
      var front := os[..n];
      LastStep(matrix, start, os);
      var r := After(matrix, start, front);
      assert QuietAt(matrix, start, os, n, to);
      if r.pending == Some(to) {
        PendingBacked(matrix, start, front, to);
        var j :| Backed(matrix, start, front, j, to, r.samples);
        QuietGrows(matrix, start, os, j, to);
        assert Backed(matrix, start, os, j, to, After(matrix, start, os).samples);
      } else {
        assert Votes(matrix, start, front, n, to) == 0;
        assert Backed(matrix, start, os, n, to, 1);
      }
    }
  }

  /** Votes for `to` without interruption, enough with observation `k` itself. */
  ghost predicate Confirmed(matrix: Matrix, start: Rung, os: seq<Observation>, k: nat, from: Label, to: Label) {
    && k < |os|
    && exists j {:trigger Quiet(matrix, start, os[..k], j, to)} :: 0 <= j <= k && Quiet(matrix, start, os[..k], j, to)
         && Votes(matrix, start, os[..k], j, to) + 1 >= Required(matrix, from, to)
  }

  /**
   On every run from every start, an observation switches an active rung exactly when it counts and
   confirms: with it, 2 votes for an upgrade or 3 for a downgrade have come in since the last switch, what
   the start had pending included, with no observation of the active rung and no counted one of a third
   rung between them.
   */
  lemma SwitchIff(matrix: Matrix, start: Rung, os: seq<Observation>, k: nat)
    requires k < |os| && Before(matrix, start, os, k).active.Some?
    ensures Switches(matrix, start, os, k) <==>
      && Counted(matrix, start, os, k)
      && Confirmed(matrix, start, os, k, Before(matrix, start, os, k).active.value, os[k].seen)
    ensures Switches(matrix, start, os, k) ==> Before(matrix, start, os, k + 1).active == Some(os[k].seen)
  {
    var front, to := os[..k], os[k].seen;
    var r := After(matrix, start, front);
    assert os[..k + 1][..k] == front;
    assert Before(matrix, start, os, k + 1) == Observe(matrix, r, os[k]);
    if Counted(matrix, start, os, k) && Confirmed(matrix, start, os, k, r.active.value, to) {
      var j: nat :| 0 <= j <= k && Quiet(matrix, start, front, j, to)
        && Votes(matrix, start, front, j, to) + 1 >= Required(matrix, r.active.value, to);
      VotesBound(matrix, start, front, j, to);
    }
    if Switches(matrix, start, os, k) {
      PendingBacked(matrix, start, front, to);
      var j :| Backed(matrix, start, front, j, to, r.samples);
      assert Quiet(matrix, start, front, j, to);
    }
  }

  ghost predicate Clocked(start: Rung, os: seq<Observation>) {
    && (forall i :: 0 <= i < |os| ==> start.lastSwitchAt <= os[i].now)
    && forall i, j :: 0 <= i < j < |os| ==> os[i].now <= os[j].now
  }

  lemma PrefixSwitch(matrix: Matrix, start: Rung, os: seq<Observation>, n: nat, i: nat)
    requires i < n <= |os|
    ensures Switches(matrix, start, os[..n], i) == Switches(matrix, start, os, i)
  {
    assert os[..n][..i] == os[..i] && os[..n][..i + 1] == os[..i + 1];
  }

  lemma HoldStep(matrix: Matrix, r: Rung, o: Observation)
    ensures var t := Observe(matrix, r, o);
      && (t.lastSwitchAt == r.lastSwitchAt || t.lastSwitchAt == o.now)
      && (t.active != r.active ==> t.lastSwitchAt == o.now)
  {
  }

  lemma {:induction false} HoldStart(matrix: Matrix, start: Rung, os: seq<Observation>)
    requires Clocked(start, os)
    ensures After(matrix, start, os).lastSwitchAt >= start.lastSwitchAt
  {
    if os != [] { HoldStart(matrix, start, os[..|os| - 1]); }
  }

  /** The hold clock is no earlier than any switch. */
  lemma {:induction false} HoldClock(matrix: Matrix, start: Rung, os: seq<Observation>, i: nat)
    requires Clocked(start, os) && Switches(matrix, start, os, i)
    ensures After(matrix, start, os).lastSwitchAt >= os[i].now
  {
    var n := |os| - 1;
    LastStep(matrix, start, os);
    HoldStep(matrix, After(matrix, start, os[..n]), os[n]);
    if i < n {
      PrefixSwitch(matrix, start, os, n, i);
      HoldClock(matrix, start, os[..n], i);
    }
  }

  /** A downgrade never follows another switch within 8 seconds, be it one of the run or the start's last one. */
  lemma DowngradeHeld(matrix: Matrix, start: Rung, os: seq<Observation>, k: nat)
    requires Clocked(start, os) && Switches(matrix, start, os, k)
    requires Before(matrix, start, os, k).active.Some?
    requires IsDowngrade(matrix, Before(matrix, start, os, k).active.value, os[k].seen)
    ensures os[k].now - start.lastSwitchAt >= MIN_HOLD_MS
    ensures forall i: nat :: i < k && Switches(matrix, start, os, i) ==> os[k].now - os[i].now >= MIN_HOLD_MS
  {
    var front := os[..k];
    SwitchIff(matrix, start, os, k);
    HoldStart(matrix, start, front);
    forall i: nat | i < k && Switches(matrix, start, os, i) ensures os[k].now - os[i].now >= MIN_HOLD_MS {
      PrefixSwitch(matrix, start, os, k, i);
      HoldClock(matrix, start, front, i);
    }
  }

  // ---- The gate after a restart

  /**
   A restored rung is trusted only once fresh observations agree, for at most ten seconds.  The samples are
   forgotten by a confirmation only, not at the end of a recovery, nor when the next one is armed.
   */
  datatype Warm = Warm(recovering: bool, appliedAt: int, samples: seq<Label>)

  predicate Gated(w: Warm, now: int) {
    w.recovering && now - w.appliedAt < WARM_CONFIRM_MS
  }

  function LastThree(s: seq<Label>): (r: seq<Label>)
    ensures |r| <= WARM_CONFIRM_SAMPLES
  {
    if |s| > WARM_CONFIRM_SAMPLES then s[|s| - WARM_CONFIRM_SAMPLES..] else s
  }

  predicate Agree(samples: seq<Label>, l: Label) {
    |samples| >= WARM_CONFIRM_SAMPLES && forall i :: 0 <= i < |samples| ==> samples[i] == l
  }

  function Gate(w: Warm, o: Observation): Warm {
    var samples := LastThree(w.samples + [o.seen]);
    if !Gated(w, o.now) then w
    else if Agree(samples, o.seen) then w.(recovering := false, samples := [])
    else w.(samples := samples)
  }

  predicate Passes(w: Warm, o: Observation) {
    !Gated(w, o.now) || Agree(LastThree(w.samples + [o.seen]), o.seen)
  }

  function WarmAfter(w: Warm, os: seq<Observation>): Warm {
    if os == [] then w else Gate(WarmAfter(w, os[..|os| - 1]), os[|os| - 1])
  }

  /** Every observation of `os` arrived inside the recovery window and was kept back. */
  ghost predicate KeptBack(w: Warm, os: seq<Observation>) {
    os == [] || (KeptBack(w, os[..|os| - 1]) && !Passes(WarmAfter(w, os[..|os| - 1]), os[|os| - 1]))
  }

  function Labels(os: seq<Observation>): seq<Label> {
    if os == [] then [] else Labels(os[..|os| - 1]) + [os[|os| - 1].seen]
  }

  /** `l` is the third in a row behind `ls`. */
  predicate ThirdInRow(ls: seq<Label>, l: Label) {
    |ls| >= 2 && ls[|ls| - 1] == l && ls[|ls| - 2] == l
  }

  lemma LastThreeSnoc(s: seq<Label>, l: Label)
    ensures LastThree(LastThree(s) + [l]) == LastThree(s + [l])
  {
  }

  lemma AgreeIff(s: seq<Label>, l: Label)
    ensures Agree(LastThree(s + [l]), l) <==> ThirdInRow(s, l)
  {
    if |s| >= 2 {
      var t := LastThree(s + [l]);
      assert t == [s[|s| - 2], s[|s| - 1], l];
      assert Agree(t, l) <==> t[0] == l && t[1] == l && t[2] == l;
    }
  }

  lemma KeptStep(w: Warm, ls: seq<Label>, o: Observation)
    requires w.samples == LastThree(ls) && !Passes(w, o)
    ensures Gate(w, o) == w.(samples := LastThree(ls + [o.seen]))
  {
    LastThreeSnoc(ls, o.seen);
  }

  lemma Regroup<T>(a: seq<T>, b: seq<T>, c: seq<T>)
    ensures a + (b + c) == (a + b) + c
  {
  }

  lemma {:induction false} WarmSamples(w: Warm, os: seq<Observation>)
    requires |w.samples| <= WARM_CONFIRM_SAMPLES && KeptBack(w, os)
    ensures WarmAfter(w, os) == w.(samples := LastThree(w.samples + Labels(os)))
  {
    if os == [] {
      assert w.samples + Labels(os) == w.samples;
    } else {
      var n := |os| - 1;
      WarmSamples(w, os[..n]);
      KeptStep(WarmAfter(w, os[..n]), w.samples + Labels(os[..n]), os[n]);
      Regroup(w.samples, Labels(os[..n]), [os[n].seen]);
    }
  }

  /**
   While the tab recovers, an observation gets through exactly when it is the third in a row for its
   rung, counting the samples that an earlier recovery left behind; until then nothing else changes.
   */
  lemma GateIff(w: Warm, os: seq<Observation>, o: Observation)
    requires |w.samples| <= WARM_CONFIRM_SAMPLES && KeptBack(w, os) && Gated(w, o.now)
    ensures Passes(WarmAfter(w, os), o) <==> ThirdInRow(w.samples + Labels(os), o.seen)
  {
    WarmSamples(w, os);
    LastThreeSnoc(w.samples + Labels(os), o.seen);
    AgreeIff(w.samples + Labels(os), o.seen);
  }

  /** What the gate is for: nothing gets through before three observations of this recovery agree. */
  ghost predicate TakesThree(w: Warm) {
    forall os: seq<Observation>, o: Observation ::
      KeptBack(w, os) && Gated(w, o.now) && Passes(WarmAfter(w, os), o) ==> ThirdInRow(Labels(os), o.seen)
  }

  lemma OneKept(w: Warm, o: Observation)
    ensures WarmAfter(w, []) == w && Labels([o]) == [o.seen] && (KeptBack(w, [o]) <==> !Passes(w, o))
  {
    assert [o][..0] == [];
  }

  lemma PassesEarly(w: Warm, os: seq<Observation>, o: Observation)
    requires KeptBack(w, os) && Gated(w, o.now) && Passes(WarmAfter(w, os), o) && !ThirdInRow(Labels(os), o.seen)
    ensures !TakesThree(w)
  {
  }

  /** With a sample left over, two observations of its rung are enough. */
  lemma LeftoverCounts(w: Warm)
    requires 0 < |w.samples| <= WARM_CONFIRM_SAMPLES && w.recovering
    ensures !TakesThree(w)
  {
    var o := Observation(w.samples[|w.samples| - 1], w.appliedAt);
    OneKept(w, o);
    if Passes(w, o) {
      PassesEarly(w, [], o);
    } else {
      GateIff(w, [o], o);
      PassesEarly(w, [o], o);
    }
  }

  /** A recovery takes three observations exactly when it begins without samples of an earlier one. */
  lemma TakesThreeIff(w: Warm)
    requires |w.samples| <= WARM_CONFIRM_SAMPLES && w.recovering
    ensures TakesThree(w) <==> w.samples == []
  {
    if w.samples != [] {
      LeftoverCounts(w);
    } else {
      forall os: seq<Observation>, o: Observation | KeptBack(w, os) && Gated(w, o.now) && Passes(WarmAfter(w, os), o)
        ensures ThirdInRow(Labels(os), o.seen)
      {
        GateIff(w, os, o);
        assert w.samples + Labels(os) == Labels(os);
      }
    }
  }

  // ---- The whole tab

  datatype Tab = Tab(rung: Rung, warm: Warm)

  const NEW_TAB := Tab(UNSET, Warm(false, 0, []))

  /**
   What reaches the tab's record: an observation; a recovery armed or called off; the record built anew by a
   playlist update, which hands on neither the pending rung nor the samples; a snapshot merged into it.
   */
  datatype Event =
    | See(o: Observation)
    | Arm(at: int)
    | CallOff
    | Rebuild(active: Option<Label>, lastSwitchAt: int)
    | Restore(active: Option<Label>, at: int)

  function TabStep(matrix: Matrix, t: Tab, e: Event): Tab {
    match e
    case See(o) => Tab(if Passes(t.warm, o) then Observe(matrix, t.rung, o) else t.rung, Gate(t.warm, o))
    case Arm(at) => t.(warm := t.warm.(recovering := true, appliedAt := at))
    case CallOff => t.(warm := t.warm.(recovering := false))
    case Rebuild(active, at) => Tab(Rung(active, at, None, 0), t.warm.(samples := []))
    case Restore(active, at) => Tab(t.rung.(active := active), t.warm.(recovering := true, appliedAt := at))
  }

  function TabAfter(matrix: Matrix, t: Tab, es: seq<Event>): Tab {
    if es == [] then t else TabStep(matrix, TabAfter(matrix, t, es[..|es| - 1]), es[|es| - 1])
  }

  lemma TabSnoc(matrix: Matrix, t: Tab, es: seq<Event>, e: Event)
    ensures TabAfter(matrix, t, es + [e]) == TabStep(matrix, TabAfter(matrix, t, es), e)
  {
    assert (es + [e])[..|es|] == es;
  }

  /** The rung the record was last given, and the observations that have got through since. */
  datatype Stretch = Stretch(start: Rung, os: seq<Observation>)

  function LastStretch(matrix: Matrix, t: Tab, es: seq<Event>): Stretch {
    if es == [] then Stretch(t.rung, [])
    else
      var before, front := TabAfter(matrix, t, es[..|es| - 1]), LastStretch(matrix, t, es[..|es| - 1]);
      match es[|es| - 1]
      case See(o) => if Passes(before.warm, o) then front.(os := front.os + [o]) else front
      case Rebuild(active, at) => Stretch(Rung(active, at, None, 0), [])
      case Restore(active, at) => Stretch(before.rung.(active := active), [])
      case _ => front
  }

  /** The rung is what the last stretch makes of its start, and the gate never holds more than three samples. */
  lemma {:induction false} StretchTells(matrix: Matrix, t: Tab, es: seq<Event>)
    requires |t.warm.samples| <= WARM_CONFIRM_SAMPLES
    ensures var r := TabAfter(matrix, t, es); var p := LastStretch(matrix, t, es);
      r.rung == After(matrix, p.start, p.os) && |r.warm.samples| <= WARM_CONFIRM_SAMPLES
  {
    if es != [] {
      var n := |es| - 1;
      var front := LastStretch(matrix, t, es[..n]);
      StretchTells(matrix, t, es[..n]);
      if es[n].See? { assert (front.os + [es[n].o])[..|front.os|] == front.os; }
    }
  }

  /**
   On every run of a tab, an observation switches the active rung exactly when it gets through the gate,
   counts, and confirms within the last stretch.
   */
  lemma TabSwitchIff(matrix: Matrix, t: Tab, es: seq<Event>, o: Observation)
    requires |t.warm.samples| <= WARM_CONFIRM_SAMPLES && TabAfter(matrix, t, es).rung.active.Some?
    ensures var r := TabAfter(matrix, t, es); var p := LastStretch(matrix, t, es); var os := p.os + [o];
      TabStep(matrix, r, See(o)).rung.active != r.rung.active <==>
        && Passes(r.warm, o) && Counted(matrix, p.start, os, |p.os|)
        && Confirmed(matrix, p.start, os, |p.os|, r.rung.active.value, o.seen)
  {
    var p := LastStretch(matrix, t, es);
    var os := p.os + [o];
    StretchTells(matrix, t, es);
    assert os[..|p.os|] == p.os && os[..|p.os| + 1] == os;
    LastStep(matrix, p.start, os);
    SwitchIff(matrix, p.start, os, |p.os|);
  }

  /** Every observation comes with a playlist update that built the record anew. */
  ghost predicate OnlyUpdates(es: seq<Event>) {
    forall i :: 0 <= i < |es| && es[i].See? ==> i > 0 && es[i - 1].Rebuild?
  }

  /**
   As each update forgets what was pending, observations that come with updates alone never switch an
   active rung, and never get through the gate.
   */
  lemma UpdatesNeverSwitch(matrix: Matrix, t: Tab, es: seq<Event>, k: nat)
    requires OnlyUpdates(es) && k < |es| && es[k].See?
    ensures var before := TabAfter(matrix, t, es[..k]); var r := TabAfter(matrix, t, es[..k + 1]);
      && (before.rung.active.Some? ==> r.rung.active == before.rung.active)
      && (Gated(before.warm, es[k].o.now) ==> !Passes(before.warm, es[k].o))
  {
    assert es[..k + 1][..k] == es[..k] && es[..k][..k - 1] == es[..k - 1];
    assert es[..k][k - 1] == es[k - 1];
    var before := TabAfter(matrix, t, es[..k]);
    assert before == TabStep(matrix, TabAfter(matrix, t, es[..k - 1]), es[k - 1]);
    AgreeIff([], es[k].o.seen);
    assert [] + [es[k].o.seen] == [es[k].o.seen];
  }

  lemma TwoKept(l: Label, from: int)
    ensures Gate(Warm(true, from, []), Observation(l, from)) == Warm(true, from, [l])
    ensures Gate(Warm(true, from, [l]), Observation(l, from)) == Warm(true, from, [l, l])
  {
    assert [] + [l] == [l] && [l] + [l] == [l, l];
  }

  lemma TwoSeen(matrix: Matrix, l: Label, from: int) returns (es: seq<Event>)
    ensures es == [Arm(from), See(Observation(l, from)), See(Observation(l, from))]
    ensures TabAfter(matrix, NEW_TAB, es).warm == Warm(true, from, [l, l])
  {
    var o := Observation(l, from);
    TwoKept(l, from);
    TabSnoc(matrix, NEW_TAB, [], Arm(from));
    es := [] + [Arm(from)];
    TabSnoc(matrix, NEW_TAB, es, See(o));
    es := es + [See(o)];
    TabSnoc(matrix, NEW_TAB, es, See(o));
    es := es + [See(o)];
  }

  /**
   A run of one record that gets through too early: the first recovery sees `l` twice and is called off, and
   the very first observation of the second one passes.
   */
  lemma LeftoverPasses(matrix: Matrix, l: Label, from: int, at: int) returns (es: seq<Event>)
    ensures es == [Arm(from), See(Observation(l, from)), See(Observation(l, from)), CallOff, Arm(at)]
    ensures var r := TabAfter(matrix, NEW_TAB, es);
      Gated(r.warm, at) && Passes(r.warm, Observation(l, at)) && !TakesThree(r.warm)
  {
    es := TwoSeen(matrix, l, from);
    TabSnoc(matrix, NEW_TAB, es, CallOff);
    es := es + [CallOff];
    TabSnoc(matrix, NEW_TAB, es, Arm(at));
    es := es + [Arm(at)];
    var w := Warm(true, at, [l, l]);
    assert TabAfter(matrix, NEW_TAB, es).warm == w;
    AgreeIff(w.samples, l);
    LeftoverCounts(w);
  }

  class TabRung {
    const matrix: Matrix
    var activeRung: Option<Label>
    var lastSwitchAt: int
    var pendingRung: Option<Label>
    var pendingSamples: nat
    var recovering: bool
    var recoveryAppliedAt: int
    var recoverySamples: seq<Label>

    constructor (m: Matrix)
      ensures matrix == m && Contents() == NEW_TAB
    {
      matrix := m;
      activeRung, lastSwitchAt, pendingRung, pendingSamples := None, 0, None, 0;
      recovering, recoveryAppliedAt, recoverySamples := false, 0, [];
    }

    /** The record a playlist update builds: pending rung and samples are not handed on. */
    constructor Rebuilt(previous: TabRung, active: Option<Label>, switchedAt: int)
      ensures matrix == previous.matrix
      ensures Contents() == TabStep(matrix, old(previous.Contents()), Rebuild(active, switchedAt))
    {
      matrix := previous.matrix;
      activeRung, lastSwitchAt, pendingRung, pendingSamples := active, switchedAt, None, 0;
      recovering, recoveryAppliedAt, recoverySamples := previous.recovering, previous.recoveryAppliedAt, [];
    }

    ghost function Snapshot(): Rung
      reads this
    {
      Rung(activeRung, lastSwitchAt, pendingRung, pendingSamples)
    }

    ghost function Recovery(): Warm
      reads this
    {
      Warm(recovering, recoveryAppliedAt, recoverySamples)
    }

    ghost function Contents(): Tab
      reads this
    {
      Tab(Snapshot(), Recovery())
    }

    method ArmRecovery(at: int)
      modifies `recovering, `recoveryAppliedAt
      ensures Contents() == TabStep(matrix, old(Contents()), Arm(at))
    {
      recovering := true;
      recoveryAppliedAt := at;
    }

    method CallOffRecovery()
      modifies `recovering
      ensures Contents() == TabStep(matrix, old(Contents()), CallOff)
    {
      recovering := false;
    }

    method PassGate(o: Observation) returns (passes: bool)
      modifies `recovering, `recoverySamples
      ensures passes == Passes(old(Recovery()), o) && Recovery() == Gate(old(Recovery()), o)
    {
      if !(recovering && o.now - recoveryAppliedAt < WARM_CONFIRM_MS) { return true; }
      recoverySamples := recoverySamples + [o.seen];
      if |recoverySamples| > WARM_CONFIRM_SAMPLES {
        recoverySamples := recoverySamples[|recoverySamples| - WARM_CONFIRM_SAMPLES..];
      }
      if !(|recoverySamples| >= WARM_CONFIRM_SAMPLES && forall i :: 0 <= i < |recoverySamples| ==>
        recoverySamples[i] == o.seen) {
        return false;
      }
      recovering := false;
      recoverySamples := [];
      return true;
    }

    method SwitchTo(rung: Label, now: int)
      modifies `activeRung, `lastSwitchAt, `pendingRung, `pendingSamples
      ensures Snapshot() == Rung(Some(rung), now, None, 0)
    {
      activeRung := Some(rung);
      lastSwitchAt := now;
      pendingRung := None;
      pendingSamples := 0;
    }

    method TakeObservation(o: Observation)
      modifies `activeRung, `lastSwitchAt, `pendingRung, `pendingSamples
      ensures Snapshot() == Observe(matrix, old(Snapshot()), o)
    {
      if activeRung.None? {
        SwitchTo(o.seen, o.now);
        return;
      }
      var current := activeRung.value;
      if current == o.seen {
        pendingRung := None;
        pendingSamples := 0;
        return;
      }
      var downgrade := IsDowngrade(matrix, current, o.seen);
      if downgrade && o.now < lastSwitchAt + MIN_HOLD_MS { return; }
      if pendingRung != Some(o.seen) {
        pendingRung := Some(o.seen);
        pendingSamples := 1;
        return;
      }
      pendingSamples := pendingSamples + 1;
      var required := if downgrade then CONFIRM_DOWNGRADE else CONFIRM_UPGRADE;
      if pendingSamples < required { return; }
      SwitchTo(o.seen, o.now);
    }

    /** `applyMatrixToTabState`; no label, when the playlist matches no rung of the matrix. */
    method ApplyMatrix(seen: Option<Label>, now: int)
      modifies this
      ensures seen.None? ==> Contents() == old(Contents())
      ensures seen.Some? ==> Contents() == TabStep(matrix, old(Contents()), See(Observation(seen.value, now)))
    {
      if seen.None? { return; }
      var o := Observation(seen.value, now);
      var passes := PassGate(o);
      if passes { TakeObservation(o); }
    }
  }
}
