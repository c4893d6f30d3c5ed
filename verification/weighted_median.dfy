/** The weighted median of the playhead signals: the loop over a sorted copy, and what the result means. */
module WeightedMedian {
  import opened OrderedMap

  datatype Source = FromAnchor | FromPredictor | FromObserved | FromVelocity

  datatype Signal = Signal(source: Source, index: int, weight: nat)

  /** `Number(weight) || 1` */
  function Heft(s: Signal): nat {
    if s.weight == 0 then 1 else s.weight
  }

  // ---- Sums over signals

  datatype Measure = All | UpTo(x: int) | DistanceTo(x: int)

  function Abs(x: int): nat {
    if x < 0 then -x else x
  }

  function Value(s: Signal, m: Measure): nat {
    match m
    case All => Heft(s)
    case UpTo(x) => if s.index <= x then Heft(s) else 0
    case DistanceTo(x) => Heft(s) * Abs(s.index - x)
  }

  function Sum(signals: seq<Signal>, m: Measure): nat {
    if signals == [] then 0 else Value(signals[0], m) + Sum(signals[1..], m)
  }

  lemma {:induction false} SumConcat(a: seq<Signal>, b: seq<Signal>, m: Measure)
    ensures Sum(a + b, m) == Sum(a, m) + Sum(b, m)
  {
    if a == [] {
      assert a + b == b;
    } else {
      assert (a + b)[1..] == a[1..] + b;
      SumConcat(a[1..], b, m);
    }
  }

  lemma SumWithout(b: seq<Signal>, j: nat, m: Measure)
    requires j < |b|
    ensures Sum(b, m) == Value(b[j], m) + Sum(b[..j] + b[j + 1..], m)
  {
    assert b == b[..j] + b[j..];
    assert b[j..][1..] == b[j + 1..];
    SumConcat(b[..j], b[j..], m);
    SumConcat(b[..j], b[j + 1..], m);
  }

  lemma BagWithout(b: seq<Signal>, j: nat)
    requires j < |b|
    ensures multiset(b) == multiset{b[j]} + multiset(b[..j] + b[j + 1..])
  {
    assert b == b[..j] + [b[j]] + b[j + 1..];
  }

  lemma BagCancel(x: Signal, p: multiset<Signal>, q: multiset<Signal>)
    requires multiset{x} + p == multiset{x} + q
    ensures p == q
  {
    forall y ensures p[y] == q[y] {
      assert (multiset{x} + p)[y] == (multiset{x} + q)[y];
    }
  }

  /** Sums do not depend on the order of the signals. */
  lemma {:induction false} SumPermutation(a: seq<Signal>, b: seq<Signal>, m: Measure)
    requires multiset(a) == multiset(b)
    ensures Sum(a, m) == Sum(b, m)
  {
    if a == [] {
      assert |multiset(b)| == 0;
    } else {
      assert a[0] in multiset(b);
      var j :| 0 <= j < |b| && b[j] == a[0];
      assert a == [a[0]] + a[1..];
      BagWithout(b, j);
      BagCancel(a[0], multiset(a[1..]), multiset(b[..j] + b[j + 1..]));
      SumPermutation(a[1..], b[..j] + b[j + 1..], m);
      SumWithout(b, j, m);
    }
  }

  lemma {:induction false} UpToMonotone(s: seq<Signal>, x: int, y: int)
    requires x <= y
    ensures Sum(s, UpTo(x)) <= Sum(s, UpTo(y)) <= Sum(s, All)
  {
    if s != [] { UpToMonotone(s[1..], x, y); }
  }

  lemma {:induction false} UpToEverything(s: seq<Signal>, x: int)
    requires forall i :: 0 <= i < |s| ==> s[i].index <= x
    ensures Sum(s, UpTo(x)) == Sum(s, All)
  {
    if s != [] { UpToEverything(s[1..], x); }
  }

  lemma {:induction false} UpToNothing(s: seq<Signal>, x: int)
    requires forall i :: 0 <= i < |s| ==> s[i].index > x
    ensures Sum(s, UpTo(x)) == 0
  {
    if s != [] { UpToNothing(s[1..], x); }
  }

  // ---- The sorted copy

  function Insert(s: Signal, sorted: seq<Signal>): seq<Signal> {
    if sorted == [] || s.index <= sorted[0].index then [s] + sorted else [sorted[0]] + Insert(s, sorted[1..])
  }

  function SortByIndex(signals: seq<Signal>): seq<Signal> {
    if signals == [] then [] else Insert(signals[0], SortByIndex(signals[1..]))
  }

  ghost predicate Ascending(s: seq<Signal>) {
    forall i, j :: 0 <= i < j < |s| ==> s[i].index <= s[j].index
  }

  lemma {:induction false} InsertMembers(s: Signal, sorted: seq<Signal>)
    ensures multiset(Insert(s, sorted)) == multiset{s} + multiset(sorted)
  {
    if sorted != [] && s.index > sorted[0].index {
      InsertMembers(s, sorted[1..]);
      assert sorted == [sorted[0]] + sorted[1..];
    }
  }

  lemma {:induction false} InsertAscends(s: Signal, sorted: seq<Signal>)
    requires Ascending(sorted)
    ensures Ascending(Insert(s, sorted))
  {
    if sorted != [] && s.index > sorted[0].index {
      var rest := Insert(s, sorted[1..]);
      InsertAscends(s, sorted[1..]);
      InsertMembers(s, sorted[1..]);
      forall j | 0 <= j < |rest| ensures sorted[0].index <= rest[j].index {
        assert rest[j] in multiset(rest);
      }
    }
  }

  lemma {:induction false} SortSorts(signals: seq<Signal>)
    ensures Ascending(SortByIndex(signals)) && multiset(SortByIndex(signals)) == multiset(signals)
  {
    if signals != [] {
      SortSorts(signals[1..]);
      InsertAscends(signals[0], SortByIndex(signals[1..]));
      InsertMembers(signals[0], SortByIndex(signals[1..]));
      assert signals == [signals[0]] + signals[1..];
    }
  }

  // ---- The median

  /** The first index at which the weight so far reaches half of the total, else the last one. */
  function Scan(sorted: seq<Signal>, sofar: nat, total: nat): int
    requires sorted != []
  {
    var w := sofar + Heft(sorted[0]);
    if 2 * w >= total || |sorted| == 1 then sorted[0].index else Scan(sorted[1..], w, total)
  }

  lemma InsertNonEmpty(signals: seq<Signal>)
    requires signals != []
    ensures SortByIndex(signals) != []
  {
  }

  function Median(signals: seq<Signal>): int
    requires signals != []
  {
    InsertNonEmpty(signals);
    Scan(SortByIndex(signals), 0, Sum(signals, All))
  }

  /** The least of the signals' indices at which at least half of the weight lies at or below it. */
  ghost predicate IsMedian(signals: seq<Signal>, m: int) {
    && (exists s :: s in signals && s.index == m)
    && 2 * Sum(signals, UpTo(m)) >= Sum(signals, All)
    && 2 * Sum(signals, UpTo(m - 1)) < Sum(signals, All)
  }

  lemma UpToPrefix(sorted: seq<Signal>, k: nat, x: int)
    requires k <= |sorted|
    requires forall i :: 0 <= i < k ==> sorted[i].index <= x
    ensures Sum(sorted, UpTo(x)) >= Sum(sorted[..k], All)
  {
    assert sorted == sorted[..k] + sorted[k..];
    SumConcat(sorted[..k], sorted[k..], UpTo(x));
    UpToEverything(sorted[..k], x);
  }

  lemma UpToOnlyPrefix(sorted: seq<Signal>, k: nat, x: int)
    requires k <= |sorted|
    requires forall i :: k <= i < |sorted| ==> sorted[i].index > x
    ensures Sum(sorted, UpTo(x)) <= Sum(sorted[..k], All)
  {
    assert sorted == sorted[..k] + sorted[k..];
    SumConcat(sorted[..k], sorted[k..], UpTo(x));
    UpToNothing(sorted[k..], x);
    UpToMonotone(sorted[..k], x, x);
  }

  lemma AtLeastHalf(sorted: seq<Signal>, k: nat)
    requires k < |sorted| && Ascending(sorted)
    requires 2 * Sum(sorted[..k + 1], All) >= Sum(sorted, All)
    ensures 2 * Sum(sorted, UpTo(sorted[k].index)) >= Sum(sorted, All)
  {
    UpToPrefix(sorted, k + 1, sorted[k].index);
  }

  lemma BelowHalf(sorted: seq<Signal>, k: nat)
    requires k < |sorted| && Ascending(sorted)
    requires 2 * Sum(sorted[..k], All) < Sum(sorted, All)
    ensures 2 * Sum(sorted, UpTo(sorted[k].index - 1)) < Sum(sorted, All)
  {
    UpToOnlyPrefix(sorted, k, sorted[k].index - 1);
  }

  lemma {:induction false} ScanFindsMedian(sorted: seq<Signal>, k: nat)
    requires k < |sorted| && Ascending(sorted)
    requires 2 * Sum(sorted[..k], All) < Sum(sorted, All)
    ensures IsMedian(sorted, Scan(sorted[k..], Sum(sorted[..k], All), Sum(sorted, All)))
    decreases |sorted| - k
  {
    var total := Sum(sorted, All);
    var w := Sum(sorted[..k], All) + Heft(sorted[k]);
    assert sorted[..k + 1] == sorted[..k] + [sorted[k]];
    SumConcat(sorted[..k], [sorted[k]], All);
    assert sorted[k..][1..] == sorted[k + 1..];
    if 2 * w >= total || k + 1 == |sorted| {
      if k + 1 == |sorted| { assert sorted[..k + 1] == sorted; }
      assert sorted[k] in sorted;
      AtLeastHalf(sorted, k);
      BelowHalf(sorted, k);
    } else {
      ScanFindsMedian(sorted, k + 1);
    }
  }

  lemma SamePermutation(a: seq<Signal>, b: seq<Signal>, m: int)
    requires multiset(a) == multiset(b) && IsMedian(a, m)
    ensures IsMedian(b, m)
  {
    SumPermutation(a, b, All);
    SumPermutation(a, b, UpTo(m));
    SumPermutation(a, b, UpTo(m - 1));
    var s :| s in a && s.index == m;
    assert s in multiset(b);
  }

  lemma MedianIsMedian(signals: seq<Signal>)
    requires signals != []
    ensures IsMedian(signals, Median(signals))
  {
    var sorted := SortByIndex(signals);
    SortSorts(signals);
    InsertNonEmpty(signals);
    assert sorted[0..] == sorted;
    SumPermutation(sorted, signals, All);
    assert Sum(sorted, All) >= Heft(sorted[0]);
    ScanFindsMedian(sorted, 0);
    SamePermutation(sorted, signals, Median(signals));
  }

  lemma MedianUnique(signals: seq<Signal>, m: int, n: int)
    requires IsMedian(signals, m) && IsMedian(signals, n)
    ensures m == n
  {
    if m < n { UpToMonotone(signals, m, n - 1); }
    if n < m { UpToMonotone(signals, n, m - 1); }
  }

  /** The order in which the signals arrive does not matter. */
  lemma MedianOrderIndependent(a: seq<Signal>, b: seq<Signal>)
    requires a != [] && multiset(a) == multiset(b)
    ensures b != [] && Median(a) == Median(b)
  {
    assert a[0] in multiset(b);
    MedianIsMedian(a);
    MedianIsMedian(b);
    SamePermutation(a, b, Median(a));
    MedianUnique(b, Median(a), Median(b));
  }

  // ---- The median minimises the weighted distance

  lemma TimesAtLeast(w: nat, a: int, b: int)
    requires a >= b
    ensures w * a >= w * b
  {
  }

  /** Moving the point right by `d` costs a signal at most, and one at or left of the point exactly, `d`. */
  lemma MoveRight(s: Signal, m: int, d: nat)
    ensures Value(s, DistanceTo(m + d)) + d * Heft(s) >= Value(s, DistanceTo(m)) + 2 * (d * Value(s, UpTo(m)))
  {
    var w := Heft(s);
    if s.index <= m {
      assert Abs(s.index - (m + d)) == Abs(s.index - m) + d;
      assert w * (Abs(s.index - m) + d) == w * Abs(s.index - m) + w * d;
    } else {
      TimesAtLeast(w, Abs(s.index - (m + d)) + d, Abs(s.index - m));
    }
  }

  lemma Distribute(d: nat, a: nat, b: nat)
    ensures d * (a + b) == d * a + d * b
  {
  }

  lemma {:induction false} MoveAllRight(signals: seq<Signal>, m: int, d: nat)
    ensures Sum(signals, DistanceTo(m + d)) + d * Sum(signals, All)
         >= Sum(signals, DistanceTo(m)) + 2 * (d * Sum(signals, UpTo(m)))
  {
    if signals != [] {
      var s, rest := signals[0], signals[1..];
      MoveRight(s, m, d);
      MoveAllRight(rest, m, d);
      Distribute(d, Heft(s), Sum(rest, All));
      Distribute(d, Value(s, UpTo(m)), Sum(rest, UpTo(m)));
    }
  }

  lemma MoveLeft(s: Signal, m: int, d: nat)
    ensures Value(s, DistanceTo(m - d)) + 2 * (d * Value(s, UpTo(m - 1))) >= Value(s, DistanceTo(m)) + d * Heft(s)
  {
    var w := Heft(s);
    if s.index < m {
      TimesAtLeast(w, Abs(s.index - (m - d)) + d, Abs(s.index - m));
    } else {
      assert Abs(s.index - (m - d)) == Abs(s.index - m) + d;
      assert w * (Abs(s.index - m) + d) == w * Abs(s.index - m) + w * d;
    }
  }

  lemma {:induction false} MoveAllLeft(signals: seq<Signal>, m: int, d: nat)
    ensures Sum(signals, DistanceTo(m - d)) + 2 * (d * Sum(signals, UpTo(m - 1)))
         >= Sum(signals, DistanceTo(m)) + d * Sum(signals, All)
  {
    if signals != [] {
      var s, rest := signals[0], signals[1..];
      MoveLeft(s, m, d);
      MoveAllLeft(rest, m, d);
      Distribute(d, Heft(s), Sum(rest, All));
      Distribute(d, Value(s, UpTo(m - 1)), Sum(rest, UpTo(m - 1)));
    }
  }

  lemma RightCostsMore(far: nat, near: nat, d: nat, upTo: nat, all: nat)
    requires far + d * all >= near + 2 * (d * upTo) && 2 * upTo >= all
    ensures far >= near
  {
    TimesAtLeast(d, 2 * upTo, all);
    assert d * (2 * upTo) == 2 * (d * upTo);
  }

  lemma LeftCostsMore(far: nat, near: nat, d: nat, upTo: nat, all: nat)
    requires far + 2 * (d * upTo) >= near + d * all && 2 * upTo <= all
    ensures far >= near
  {
    TimesAtLeast(d, all, 2 * upTo);
    assert d * (2 * upTo) == 2 * (d * upTo);
  }

  /** No other index is closer to the signals by weighted distance. */
  lemma MedianMinimises(signals: seq<Signal>, x: int)
    requires signals != []
    ensures Sum(signals, DistanceTo(Median(signals))) <= Sum(signals, DistanceTo(x))
  {
    var m := Median(signals);
    MedianIsMedian(signals);
    if x >= m {
      MoveAllRight(signals, m, x - m);
      RightCostsMore(Sum(signals, DistanceTo(x)), Sum(signals, DistanceTo(m)), x - m, Sum(signals, UpTo(m)),
        Sum(signals, All));
    } else {
      MoveAllLeft(signals, m, m - x);
      LeftCostsMore(Sum(signals, DistanceTo(x)), Sum(signals, DistanceTo(m)), m - x, Sum(signals, UpTo(m - 1)),
        Sum(signals, All));
    }
  }

  /** A group with less than half of the weight cannot pull the median outside the range of the others. */
  lemma MedianResists(signals: seq<Signal>, group: seq<Signal>, others: seq<Signal>, low: int, high: int)
    requires signals != [] && multiset(signals) == multiset(group + others)
    requires 2 * Sum(group, All) < Sum(signals, All)
    requires forall i :: 0 <= i < |others| ==> low <= others[i].index <= high
    ensures low <= Median(signals) <= high
  {
    var m := Median(signals);
    MedianIsMedian(signals);
    forall t: Measure ensures Sum(signals, t) == Sum(group, t) + Sum(others, t) {
      SumPermutation(signals, group + others, t);
      SumConcat(group, others, t);
    }
    UpToMonotone(group, m - 1, m);
    if m < low { UpToNothing(others, m); }
    if m > high { UpToEverything(others, m - 1); }
  }

  // ---- The loop

  method TotalWeight(signals: seq<Signal>) returns (total: nat)
    ensures total == Sum(signals, All)
  {
    total := 0;
    for k := 0 to |signals|
      invariant total == Sum(signals[..k], All)
    {
      assert signals[..k + 1] == signals[..k] + [signals[k]];
      SumConcat(signals[..k], [signals[k]], All);
      total := total + Heft(signals[k]);
    }
    assert signals[..|signals|] == signals;
  }

  /** The walk over the sorted signals: the first index at half of the total, else the last. */
  method Walk(sorted: seq<Signal>, total: nat) returns (index: int)
    requires sorted != []
    ensures index == Scan(sorted, 0, total)
  {
    var cumulative: nat := 0;
    assert sorted[0..] == sorted;
    for k := 0 to |sorted|
      invariant k < |sorted| ==> Scan(sorted[k..], cumulative, total) == Scan(sorted, 0, total)
      invariant k == |sorted| ==> sorted[k - 1].index == Scan(sorted, 0, total)
    {
      assert sorted[k..][1..] == sorted[k + 1..];
      cumulative := cumulative + Heft(sorted[k]);
      if 2 * cumulative >= total { return sorted[k].index; }
    }
    index := sorted[|sorted| - 1].index;
  }

  /** `weightedMedianIndex`; no signals, no index. */
  method WeightedMedianIndex(signals: seq<Signal>) returns (index: Option<int>)
    ensures index == if signals == [] then None else Some(Median(signals))
  {
    if |signals| == 0 { return None; }
    var sorted := SortByIndex(signals);
    SortSorts(signals);
    InsertNonEmpty(signals);
    SumPermutation(sorted, signals, All);
    var total := TotalWeight(sorted);
    var m := Walk(sorted, total);
    index := Some(m);
  }
}
