/**
 Segment URLs addressed by a counter: recognising one, writing the ladder it belongs to, and deciding
 from the observed counters when to adopt it.  A URL is already split at its last slash and its query.
 */
module SegmentLadder {
  import opened OrderedMap
  import Digits

  const MIN_DIGITS := 2
  const MAX_SAFE_INTEGER := 9_007_199_254_740_991

  /** `dir` is the origin and the path up to and including the last slash. */
  datatype Url = Url(dir: string, basename: string, search: string)

  datatype Pattern = Pattern(dir: string, prefix: string, width: nat, suffix: string, search: string)

  datatype Member = Member(pattern: Pattern, index: nat)

  // ---- The basename expression: a shortest prefix, a run of digits, an optional short extension

  predicate IsDecimal(c: char) {
    '0' <= c <= '9'
  }

  predicate IsWord(c: char) {
    IsDecimal(c) || 'A' <= c <= 'Z' || 'a' <= c <= 'z'
  }

  /** Length of the run of digits that starts at `p`. */
  function RunAt(b: string, p: nat): (n: nat)
    requires p <= |b|
    ensures p + n <= |b|
    ensures forall i :: p <= i < p + n ==> IsDecimal(b[i])
    ensures p + n < |b| ==> !IsDecimal(b[p + n])
    decreases |b| - p
  {
    if p < |b| && IsDecimal(b[p]) then 1 + RunAt(b, p + 1) else 0
  }

  /** Nothing, or a dot and one to five letters or digits, up to the end. */
  predicate ExtensionAt(b: string, p: nat)
    requires p <= |b|
  {
    p == |b| || (b[p] == '.' && 2 <= |b| - p <= 6 && forall i :: p < i < |b| ==> IsWord(b[i]))
  }

  predicate MatchesAt(b: string, p: nat) {
    p <= |b| && RunAt(b, p) >= MIN_DIGITS && ExtensionAt(b, p + RunAt(b, p))
  }

  function PrefixLength(b: string, from: nat): (r: Option<nat>)
    ensures r.Some? ==> from <= r.value && MatchesAt(b, r.value) && forall q :: from <= q < r.value ==> !MatchesAt(b, q)
    ensures r.None? ==> forall q :: from <= q ==> !MatchesAt(b, q)
    decreases |b| - from
  {
    if from > |b| then None else if MatchesAt(b, from) then Some(from) else PrefixLength(b, from + 1)
  }

  function Parse(u: Url): Option<Member> {
    match PrefixLength(u.basename, 0)
    case None => None
    case Some(p) =>
      var n := RunAt(u.basename, p);
      var index := Digits.Number(u.basename[p..p + n], 10);
      if index > MAX_SAFE_INTEGER then None
      else Some(Member(Pattern(u.dir, u.basename[..p], n, u.basename[p + n..], u.search), index))
  }

  function Counter(i: nat, width: nat): string {
    Digits.PadStart(Digits.Print(i, 10), width)
  }

  function UrlOf(pattern: Pattern, i: nat): Url {
    Url(pattern.dir, pattern.prefix + Counter(i, pattern.width) + pattern.suffix, pattern.search)
  }

  method BuildUrls(pattern: Pattern, count: nat) returns (urls: array<Url>)
    ensures fresh(urls) && urls.Length == count
    ensures forall i :: 0 <= i < count ==> urls[i] == UrlOf(pattern, i)
  {
    urls := new Url[count](_ => Url("", "", ""));
    for i := 0 to count
      invariant forall k :: 0 <= k < i ==> urls[k] == UrlOf(pattern, k)
    {
      urls[i] := UrlOf(pattern, i);
    }
  }

  // ---- Round trips

  lemma DecimalDigits(s: string)
    requires forall i :: 0 <= i < |s| ==> IsDecimal(s[i])
    ensures Digits.AllDigits(s, 10)
  {
  }

  lemma DigitsDecimal(s: string)
    requires Digits.AllDigits(s, 10)
    ensures forall i :: 0 <= i < |s| ==> IsDecimal(s[i])
  {
    forall i | 0 <= i < |s| ensures IsDecimal(s[i]) {
      assert Digits.IsDigit(s[i], 10);
    }
  }

  /** Every member of a ladder is the synthesized URL at its own index. */
  lemma BuildParsed(u: Url)
    requires Parse(u).Some?
    ensures UrlOf(Parse(u).value.pattern, Parse(u).value.index) == u
  {
    var b := u.basename;
    var p := PrefixLength(b, 0).value;
    var n := RunAt(b, p);
    var digits := b[p..p + n];
    DecimalDigits(digits);
    Digits.PadPrint(digits, 10);
    assert b == b[..p] + digits + b[p + n..];
  }

  /** Two basenames that differ only by digits in the same places. */
  ghost predicate SameShape(a: string, b: string) {
    |a| == |b| && forall i :: 0 <= i < |a| ==> a[i] == b[i] || (IsDecimal(a[i]) && IsDecimal(b[i]))
  }

  lemma {:induction false} ShapeRun(a: string, b: string, p: nat)
    requires SameShape(a, b) && p <= |a|
    ensures RunAt(a, p) == RunAt(b, p)
    decreases |a| - p
  {
    if p < |a| { ShapeRun(a, b, p + 1); }
  }

  lemma ShapeExtension(a: string, b: string, p: nat)
    requires SameShape(a, b) && p <= |a|
    ensures ExtensionAt(a, p) == ExtensionAt(b, p)
  {
    forall i | p < i < |a| ensures IsWord(a[i]) == IsWord(b[i]) {}
  }

  lemma ShapeMatches(a: string, b: string, p: nat)
    requires SameShape(a, b)
    ensures MatchesAt(a, p) == MatchesAt(b, p)
  {
    if p <= |a| {
      ShapeRun(a, b, p);
      ShapeExtension(a, b, p + RunAt(a, p));
    }
  }

  lemma ShapePrefix(a: string, b: string)
    requires SameShape(a, b)
    ensures PrefixLength(a, 0) == PrefixLength(b, 0)
  {
    var x, y := PrefixLength(a, 0), PrefixLength(b, 0);
    if x.Some? { ShapeMatches(a, b, x.value); }
    if y.Some? { ShapeMatches(a, b, y.value); }
  }

  lemma CounterFits(i: nat, width: nat)
    requires width > 0 && i < Digits.Power(10, width)
    ensures |Counter(i, width)| == width && Digits.AllDigits(Counter(i, width), 10)
    ensures Digits.Number(Counter(i, width), 10) == i
  {
    Digits.PrintFits(i, width, 10);
    Digits.PrintDigits(i, 10);
    Digits.PadNumber(Digits.Print(i, 10), width, 10);
    Digits.PrintNumber(i, 10);
  }

  lemma LadderShape(u: Url, j: nat)
    requires Parse(u).Some? && j < Digits.Power(10, Parse(u).value.pattern.width)
    ensures SameShape(u.basename, UrlOf(Parse(u).value.pattern, j).basename)
  {
    var m := Parse(u).value.pattern;
    var a, b := u.basename, UrlOf(m, j).basename;
    var p := PrefixLength(a, 0).value;
    CounterFits(j, m.width);
    DigitsDecimal(Counter(j, m.width));
    assert a == a[..p] + a[p..p + m.width] + a[p + m.width..];
    forall i | 0 <= i < |a| ensures a[i] == b[i] || (IsDecimal(a[i]) && IsDecimal(b[i])) {
      if p <= i < p + m.width { assert b[i] == Counter(j, m.width)[i - p]; }
    }
  }

  lemma FittingParses(u: Url, j: nat)
    requires Parse(u).Some? && j < Digits.Power(10, Parse(u).value.pattern.width) && j <= MAX_SAFE_INTEGER
    ensures Parse(UrlOf(Parse(u).value.pattern, j)) == Some(Member(Parse(u).value.pattern, j))
  {
    var m := Parse(u).value.pattern;
    var a, b := u.basename, UrlOf(m, j).basename;
    var p := PrefixLength(a, 0).value;
    LadderShape(u, j);
    ShapePrefix(a, b);
    ShapeRun(a, b, p);
    CounterFits(j, m.width);
    var c := Counter(j, m.width);
    assert b == m.prefix + c + m.suffix;
    assert b[..p] == m.prefix && b[p..p + m.width] == c && b[p + m.width..] == m.suffix;
  }

  /**
   A synthesized URL parses back to the same pattern and its index exactly when the counter fits the
   pattern's width and is a safe integer.
   */
  lemma ParseBuiltIff(u: Url, j: nat)
    requires Parse(u).Some?
    ensures var m := Parse(u).value.pattern;
      Parse(UrlOf(m, j)) == Some(Member(m, j)) <==> j < Digits.Power(10, m.width) && j <= MAX_SAFE_INTEGER
  {
    var m := Parse(u).value.pattern;
    var v := UrlOf(m, j);
    if j < Digits.Power(10, m.width) && j <= MAX_SAFE_INTEGER { FittingParses(u, j); }
    if Parse(v) == Some(Member(m, j)) {
      assert |v.basename| == |m.prefix| + m.width + |m.suffix|;
      assert |Counter(j, m.width)| == m.width;
      Digits.PrintFits(j, m.width, 10);
    }
  }

  // ---- When to adopt: a run of counters with small gaps

  function Insert(x: nat, sorted: seq<nat>): seq<nat> {
    if sorted == [] || x <= sorted[0] then [x] + sorted else [sorted[0]] + Insert(x, sorted[1..])
  }

  function Sort(s: seq<nat>): seq<nat> {
    if s == [] then [] else Insert(s[0], Sort(s[1..]))
  }

  ghost predicate Ascending(s: seq<nat>) {
    forall i, j :: 0 <= i < j < |s| ==> s[i] < s[j]
  }

  lemma {:induction false} InsertMembers(x: nat, sorted: seq<nat>, y: nat)
    ensures y in Insert(x, sorted) <==> y == x || y in sorted
  {
    if sorted != [] && x > sorted[0] { InsertMembers(x, sorted[1..], y); }
  }

  lemma {:induction false} InsertAscends(x: nat, sorted: seq<nat>)
    requires Ascending(sorted) && x !in sorted
    ensures Ascending(Insert(x, sorted))
  {
    if sorted != [] && x > sorted[0] {
      var rest := Insert(x, sorted[1..]);
      InsertAscends(x, sorted[1..]);
      forall j | 0 <= j < |rest| ensures sorted[0] < rest[j] {
        InsertMembers(x, sorted[1..], rest[j]);
        assert rest[j] in rest;
      }
    }
  }

  lemma {:induction false} SortMembers(s: seq<nat>, y: nat)
    ensures y in Sort(s) <==> y in s
  {
    if s != [] {
      SortMembers(s[1..], y);
      InsertMembers(s[0], Sort(s[1..]), y);
    }
  }

  lemma {:induction false} SortAscends(s: seq<nat>)
    requires forall i, j :: 0 <= i < j < |s| ==> s[i] != s[j]
    ensures Ascending(Sort(s))
  {
    if s != [] {
      SortAscends(s[1..]);
      SortMembers(s[1..], s[0]);
      InsertAscends(s[0], Sort(s[1..]));
    }
  }

  /** Length of the run of small gaps that ends at position `i`. */
  function RunLength(s: seq<nat>, i: nat, maxGap: nat): (n: nat)
    requires i < |s|
    ensures 1 <= n <= i + 1
  {
    if i > 0 && 0 < s[i] - s[i - 1] <= maxGap then RunLength(s, i - 1, maxGap) + 1 else 1
  }

  ghost predicate HasRun(s: seq<nat>, m: nat, maxGap: nat) {
    exists i :: 0 <= i < |s| && RunLength(s, i, maxGap) >= m
  }

  method RunSearch(indices: seq<nat>, minObservations: nat, maxGap: nat) returns (found: bool)
    requires minObservations >= 2
    ensures found <==> HasRun(indices, minObservations, maxGap)
  {
    if |indices| < minObservations { return false; }
    var run := 1;
    for i := 1 to |indices|
      invariant run == RunLength(indices, i - 1, maxGap)
      invariant forall k :: 0 <= k < i ==> RunLength(indices, k, maxGap) < minObservations
    {
      var gap := indices[i] as int - indices[i - 1] as int;
      run := if gap > 0 && gap <= maxGap then run + 1 else 1;
      if run >= minObservations {
        assert RunLength(indices, i, maxGap) >= minObservations;
        return true;
      }
    }
    return false;
  }

  /** `m` observed counters, each at most `maxGap` above the one before. */
  ghost predicate IsChain(observed: seq<nat>, chain: seq<nat>, m: nat, maxGap: nat) {
    && |chain| == m
    && (forall i :: 0 <= i < m ==> chain[i] in observed)
    && forall i :: 0 < i < m ==> 0 < chain[i] - chain[i - 1] <= maxGap
  }

  lemma {:induction false} RunWindow(s: seq<nat>, i: nat, maxGap: nat, k: nat)
    requires i < |s| && 0 < k < RunLength(s, i, maxGap)
    ensures 0 < s[i - k + 1] - s[i - k] <= maxGap
  {
    if k > 1 { RunWindow(s, i - 1, maxGap, k - 1); }
  }

  /** Between two counters at most `maxGap` apart the run never breaks. */
  lemma {:induction false} RunContinues(s: seq<nat>, a: nat, b: nat, maxGap: nat)
    requires Ascending(s) && a <= b < |s| && s[b] - s[a] <= maxGap
    ensures RunLength(s, b, maxGap) == RunLength(s, a, maxGap) + (b - a)
    decreases b
  {
    if a < b { RunContinues(s, a, b - 1, maxGap); }
  }

  lemma {:induction false} ChainRun(observed: seq<nat>, s: seq<nat>, chain: seq<nat>, m: nat, maxGap: nat, k: nat)
    requires Ascending(s) && (forall y :: y in s <==> y in observed)
    requires IsChain(observed, chain, m, maxGap) && k < m
    ensures exists i :: 0 <= i < |s| && s[i] == chain[k] && RunLength(s, i, maxGap) >= k + 1
  {
    assert chain[k] in s;
    var i :| 0 <= i < |s| && s[i] == chain[k];
    if k > 0 {
      ChainRun(observed, s, chain, m, maxGap, k - 1);
      var h :| 0 <= h < |s| && s[h] == chain[k - 1] && RunLength(s, h, maxGap) >= k;
      assert h < i;
      RunContinues(s, h, i, maxGap);
    }
  }

  lemma RunIffChain(observed: seq<nat>, s: seq<nat>, m: nat, maxGap: nat)
    requires m >= 2 && s == Sort(observed) && Ascending(s)
    ensures HasRun(s, m, maxGap) <==> exists chain :: IsChain(observed, chain, m, maxGap)
  {
    forall y ensures y in s <==> y in observed { SortMembers(observed, y); }
    if HasRun(s, m, maxGap) {
      var i :| 0 <= i < |s| && RunLength(s, i, maxGap) >= m;
      var chain := s[i + 1 - m..i + 1];
      forall k | 0 < k < m ensures 0 < chain[k] - chain[k - 1] <= maxGap {
        RunWindow(s, i, maxGap, m - k);
      }
      assert IsChain(observed, chain, m, maxGap);
    }
    if exists chain :: IsChain(observed, chain, m, maxGap) {
      var chain :| IsChain(observed, chain, m, maxGap);
      ChainRun(observed, s, chain, m, maxGap, m - 1);
    }
  }

  method HasConsecutiveRun(observed: seq<nat>, minObservations: nat, maxGap: nat) returns (found: bool)
    requires forall i, j :: 0 <= i < j < |observed| ==> observed[i] != observed[j]
    requires minObservations >= 2
    ensures found <==> exists chain :: IsChain(observed, chain, minObservations, maxGap)
  {
    var indices := Sort(observed);
    SortAscends(observed);
    found := RunSearch(indices, minObservations, maxGap);
    RunIffChain(observed, indices, minObservations, maxGap);
  }

  // ---- The trackers

  const MIN_BYTES := 262_144
  const MIN_OBSERVATIONS := 3
  const MAX_INDEX_GAP := 3
  const OBSERVATION_TTL_MS := 180_000
  const SYNTH_COUNT := 2_000

  /** `seen` maps each counter observed on the tab to the time it was last observed. */
  datatype Tracker = Tracker(pattern: Pattern, seen: map<nat, int>, adopted: bool)

  /** Observations of another pattern start over. */
  function Base(trackers: map<int, Tracker>, tab: int, pattern: Pattern): Tracker {
    if tab in trackers && trackers[tab].pattern == pattern then trackers[tab] else Tracker(pattern, map[], false)
  }

  function Recent(seen: map<nat, int>, now: int): map<nat, int> {
    map i | i in seen && now - seen[i] <= OBSERVATION_TTL_MS :: seen[i]
  }

  /** The tab's counters after an observation: its own and the recent ones of the same pattern. */
  function SeenAfter(trackers: map<int, Tracker>, tab: int, m: Member, now: int): map<nat, int> {
    Recent(Base(trackers, tab, m.pattern).seen[m.index := now], now)
  }

  /** Three recent counters of one pattern, each at most three above the one before. */
  ghost predicate IsLadder(seen: map<nat, int>) {
    exists chain: seq<nat> :: |chain| == MIN_OBSERVATIONS
      && (forall i :: 0 <= i < |chain| ==> chain[i] in seen)
      && forall i :: 0 < i < |chain| ==> 0 < chain[i] - chain[i - 1] <= MAX_INDEX_GAP
  }

  method KeysOf(seen: map<nat, int>) returns (keys: seq<nat>)
    ensures forall i, j :: 0 <= i < j < |keys| ==> keys[i] != keys[j]
    ensures forall k :: k in keys <==> k in seen
  {
    keys := [];
    var todo := seen.Keys;
    while todo != {}
      invariant todo <= seen.Keys
      invariant forall i, j :: 0 <= i < j < |keys| ==> keys[i] != keys[j]
      invariant forall k :: k in keys <==> k in seen && k !in todo
      decreases |todo|
    {
      var k :| k in todo;
      todo := todo - {k};
      keys := keys + [k];
    }
  }

  lemma LadderIffChain(seen: map<nat, int>, keys: seq<nat>)
    requires forall k :: k in keys <==> k in seen
    ensures IsLadder(seen) <==> exists chain :: IsChain(keys, chain, MIN_OBSERVATIONS, MAX_INDEX_GAP)
  {
    if IsLadder(seen) {
      var chain: seq<nat> :| |chain| == MIN_OBSERVATIONS
        && (forall i :: 0 <= i < |chain| ==> chain[i] in seen)
        && forall i :: 0 < i < |chain| ==> 0 < chain[i] - chain[i - 1] <= MAX_INDEX_GAP;
      assert IsChain(keys, chain, MIN_OBSERVATIONS, MAX_INDEX_GAP);
    }
  }

  ghost predicate IsSynthesized(urls: array<Url>, pattern: Pattern)
    reads urls
  {
    urls.Length == SYNTH_COUNT && forall i :: 0 <= i < SYNTH_COUNT ==> urls[i] == UrlOf(pattern, i)
  }

  class LadderTrackers {
    var trackers: map<int, Tracker>

    constructor ()
      ensures trackers == map[]
    {
      trackers := map[];
    }

    method Prune(seen: map<nat, int>, now: int) returns (r: map<nat, int>)
      ensures r == Recent(seen, now)
    {
      r := seen;
      var todo := seen.Keys;
      while todo != {}
        invariant todo <= seen.Keys
        invariant r.Keys <= seen.Keys && forall i :: i in r ==> r[i] == seen[i]
        invariant forall i :: i in r <==> i in seen && (i in todo || now - seen[i] <= OBSERVATION_TTL_MS)
        decreases |todo|
      {
        var i :| i in todo;
        todo := todo - {i};
        if now - seen[i] > OBSERVATION_TTL_MS { r := r - {i}; }
      }
    }

    /**
     `noteSequentialSegmentObservation`.  `eligible`: the extension is on, the tab has no real playlist
     and its host may be accelerated; `accepted`: the synthesized playlist was taken.
     */
    method Note(tab: int, url: Url, byteLength: nat, eligible: bool, accepted: bool, now: int)
      returns (ladder: Option<array<Url>>)
      modifies this
      ensures !eligible || byteLength < MIN_BYTES || Parse(url).None? ==> ladder == None && trackers == old(trackers)
      ensures eligible && byteLength >= MIN_BYTES && Parse(url).Some? ==>
        var m := Parse(url).value;
        var base := Base(old(trackers), tab, m.pattern);
        var seen := SeenAfter(old(trackers), tab, m, now);
        && (ladder.Some? <==> !base.adopted && IsLadder(seen) && accepted)
        && trackers == old(trackers)[tab := Tracker(m.pattern, seen, base.adopted || ladder.Some?)]
        && (ladder.Some? ==> IsSynthesized(ladder.value, m.pattern))
    {
      if !eligible || byteLength < MIN_BYTES { return None; }
      var member := Parse(url);
      if member.None? { return None; }
      var pattern := member.value.pattern;
      var tracker := Base(trackers, tab, pattern);
      var seen := Prune(tracker.seen[member.value.index := now], now);
      trackers := trackers[tab := Tracker(pattern, seen, tracker.adopted)];
      if tracker.adopted { return None; }
      var keys := KeysOf(seen);
      var run := HasConsecutiveRun(keys, MIN_OBSERVATIONS, MAX_INDEX_GAP);
      LadderIffChain(seen, keys);
      if !run || !accepted { return None; }
      var urls := BuildUrls(pattern, SYNTH_COUNT);
      trackers := trackers[tab := Tracker(pattern, seen, true)];
      return Some(urls);
    }
  }
}
