/**
 The textual identity of one byte slice of a media URL: the fragment reference of a playlist segment, the
 header of a range request, and the cache key that the background and the page each build for it.
 Offsets are exact integers.
 */
module RangeKeys {
  import opened OrderedMap
  import opened UrlText
  import Digits

  datatype Slice = Slice(start: nat, end: nat)

  predicate Proper(s: Slice) {
    s.start <= s.end
  }

  // ---- Decimals

  function Dec(n: nat): string {
    Digits.Print(n, 10)
  }

  predicate IsNumber(s: string) {
    s != "" && forall i :: 0 <= i < |s| ==> '0' <= s[i] <= '9'
  }

  /** Position of the last `c`, or -1. */
  function LastIndex(s: string, c: char): (i: int)
    ensures -1 <= i < |s|
    ensures i >= 0 ==> s[i] == c
    ensures forall j :: i < j < |s| ==> s[j] != c
  {
    if s == "" then -1 else if s[|s| - 1] == c then |s| - 1 else LastIndex(s[..|s| - 1], c)
  }

  function FirstIndex(s: string, c: char): (i: int)
    ensures -1 <= i < |s|
    ensures i >= 0 ==> s[i] == c && forall j :: 0 <= j < i ==> s[j] != c
    ensures i < 0 ==> forall j :: 0 <= j < |s| ==> s[j] != c
  {
    if s == "" then -1 else if s[0] == c then 0
    else var i := FirstIndex(s[1..], c); if i < 0 then -1 else i + 1
  }

  /** `(\d+)-(\d+)`, the whole of `s`, with the ends in order. */
  function ParseSlice(s: string): Option<Slice> {
    var i := FirstIndex(s, '-');
    if i < 0 || !IsNumber(s[..i]) || !IsNumber(s[i + 1..]) then None
    else
      var slice := Slice(Digits.Number(s[..i], 10), Digits.Number(s[i + 1..], 10));
      if Proper(slice) then Some(slice) else None
  }

  function PrintSlice(s: Slice): string {
    Dec(s.start) + "-" + Dec(s.end)
  }

  lemma DecNumber(n: nat)
    ensures IsNumber(Dec(n)) && Digits.Number(Dec(n), 10) == n
  {
    Digits.PrintDigits(n, 10);
    Digits.PrintNumber(n, 10);
    forall i | 0 <= i < |Dec(n)| ensures '0' <= Dec(n)[i] <= '9' {
      assert Digits.IsDigit(Dec(n)[i], 10);
    }
  }

  lemma SplitAtDash(a: string, b: string)
    requires IsNumber(a)
    ensures FirstIndex(a + "-" + b, '-') == |a| && (a + "-" + b)[..|a|] == a && (a + "-" + b)[|a| + 1..] == b
  {
    var s := a + "-" + b;
    var i := FirstIndex(s, '-');
    assert s[|a|] == '-';
    forall j | 0 <= j < |a| ensures s[j] != '-' { assert s[j] == a[j]; }
  }

  /** A printed slice reads back. */
  lemma SliceRoundTrip(s: Slice)
    requires Proper(s)
    ensures ParseSlice(PrintSlice(s)) == Some(s)
  {
    DecNumber(s.start);
    DecNumber(s.end);
    SplitAtDash(Dec(s.start), Dec(s.end));
  }

  // ---- The fragment reference

  const MARK := "#aegis-bytes="

  function Lower(c: char): char {
    if 'A' <= c <= 'Z' then 'a' + (c - 'A') else c
  }

  predicate SameLetters(s: string, t: string) {
    |s| == |t| && forall i :: 0 <= i < |s| ==> Lower(s[i]) == Lower(t[i])
  }

  predicate IsSpace(c: char) {
    c == ' ' || c == '\t' || c == '\n' || c == '\r'
  }

  function TrimEnd(s: string): string {
    if s != "" && IsSpace(s[|s| - 1]) then TrimEnd(s[..|s| - 1]) else s
  }

  datatype Ref = Ref(url: string, slice: Slice)

  /** `parseAegisByteRangeRef`: the fragment may follow another one and end in white space. */
  function ParseRef(raw: string): Option<Ref> {
    var h := LastIndex(raw, '#');
    if h < 0 || |raw| < h + |MARK| || !SameLetters(raw[h..h + |MARK|], MARK) then None
    else match ParseSlice(TrimEnd(raw[h + |MARK|..]))
      case None => None
      case Some(slice) => if StripHash(raw) == "" then None else Some(Ref(StripHash(raw), slice))
  }

  function FormatRef(url: string, s: Slice): Option<string> {
    var base := StripHash(url);
    if base == "" || !Proper(s) then None else Some(base + MARK + PrintSlice(s))
  }

  lemma LastOfConcat(a: string, b: string, c: char)
    requires b != "" && b[0] == c && forall i :: 0 < i < |b| ==> b[i] != c
    ensures LastIndex(a + b, c) == |a|
  {
    var s := a + b;
    var i := LastIndex(s, c);
    assert s[|a|] == c;
    forall j | |a| < j < |s| ensures s[j] != c { assert s[j] == b[j - |a|]; }
  }

  lemma SliceText(s: Slice)
    ensures var t := PrintSlice(s); t != "" && '0' <= t[|t| - 1] <= '9' && forall i :: 0 <= i < |t| ==>
      '-' <= t[i] <= '9'
  {
    DecNumber(s.start);
    DecNumber(s.end);
  }

  /** The parts of a formatted reference. */
  lemma RefParts(base: string, s: Slice)
    requires '#' !in base
    ensures var r := base + MARK + PrintSlice(s);
      && LastIndex(r, '#') == |base| && StripHash(r) == base
      && r[|base|..|base| + |MARK|] == MARK && r[|base| + |MARK|..] == PrintSlice(s)
  {
    var tail := MARK + PrintSlice(s);
    var r := base + MARK + PrintSlice(s);
    assert r == base + tail;
    SliceText(s);
    forall i | 0 < i < |tail| ensures tail[i] != '#' {
      if i >= |MARK| { assert tail[i] == PrintSlice(s)[i - |MARK|]; }
    }
    LastOfConcat(base, tail, '#');
    StripConcat(base, tail);
  }

  lemma TrimNothing(s: Slice)
    ensures TrimEnd(PrintSlice(s)) == PrintSlice(s)
  {
    SliceText(s);
  }

  /** A formatted reference gives back its URL and slice. */
  lemma RefRoundTrip(url: string, s: Slice)
    requires FormatRef(url, s).Some?
    ensures ParseRef(FormatRef(url, s).value) == Some(Ref(StripHash(url), s))
  {
    RefParts(StripHash(url), s);
    TrimNothing(s);
    SliceRoundTrip(s);
  }

  // ---- The range key

  const RANGE := "range|"

  function RangeKey(streamId: string, s: Slice): string {
    RANGE + streamId + "|" + PrintSlice(s)
  }

  predicate IsRangeKey(key: string) {
    RANGE <= key
  }

  datatype Parsed = Parsed(streamId: string, slice: Slice)

  /** `parseRangeCacheKey`: the stream id runs to the last pipe. */
  function ParseRangeKey(key: string): Option<Parsed> {
    var p := LastIndex(key, '|');
    if !IsRangeKey(key) || p <= |RANGE| then None
    else match ParseSlice(key[p + 1..])
      case None => None
      case Some(slice) => Some(Parsed(key[|RANGE|..p], slice))
  }

  lemma SliceLacksPipe(s: Slice)
    ensures forall i :: 0 < i < |"|" + PrintSlice(s)| ==> ("|" + PrintSlice(s))[i] != '|'
  {
    var tail := "|" + PrintSlice(s);
    SliceText(s);
    forall i | 0 < i < |tail| ensures tail[i] != '|' {
      assert tail[i] == PrintSlice(s)[i - 1];
    }
  }

  lemma Cut(a: string, b: string, c: string)
    ensures var k := a + b + c; k[..|a|] == a && k[|a|..|a| + |b|] == b && k[|a| + |b|..] == c && a <= k
  {
  }

  lemma KeyParts(streamId: string, s: Slice)
    ensures var k := RangeKey(streamId, s); var p := |RANGE| + |streamId|;
      && IsRangeKey(k) && LastIndex(k, '|') == p && k[|RANGE|..p] == streamId && k[p + 1..] == PrintSlice(s)
  {
    var tail := "|" + PrintSlice(s);
    assert RangeKey(streamId, s) == RANGE + streamId + tail;
    SliceLacksPipe(s);
    LastOfConcat(RANGE + streamId, tail, '|');
    Cut(RANGE, streamId, tail);
    Cut(RANGE + streamId, "|", PrintSlice(s));
    assert RangeKey(streamId, s) == RANGE + streamId + "|" + PrintSlice(s);
  }

  lemma KeyHashFree(streamId: string, s: Slice)
    requires '#' !in streamId
    ensures '#' !in RangeKey(streamId, s) && IsRangeKey(RangeKey(streamId, s))
  {
    SliceText(s);
    KeyParts(streamId, s);
    var k, p := RangeKey(streamId, s), |RANGE| + |streamId|;
    forall i | 0 <= i < |k| ensures k[i] != '#' {
      if i > p {
        assert k[i] == PrintSlice(s)[i - p - 1];
      } else if |RANGE| <= i < p {
        assert k[i] == streamId[i - |RANGE|] && streamId[i - |RANGE|] in streamId;
      }
    }
  }

  /** A range key gives back its stream id, pipes and all, and its slice, unless the stream id is empty. */
  lemma KeyRoundTrip(streamId: string, s: Slice)
    requires Proper(s)
    ensures ParseRangeKey(RangeKey(streamId, s)) == Some(Parsed(streamId, s)) <==> streamId != ""
  {
    KeyParts(streamId, s);
    SliceRoundTrip(s);
  }

  /** Different streams or slices never share a key. */
  lemma KeyInjective(a: string, s: Slice, b: string, t: Slice)
    requires Proper(s) && Proper(t) && RangeKey(a, s) == RangeKey(b, t)
    ensures a == b && s == t
  {
    KeyParts(a, s);
    KeyParts(b, t);
    SliceRoundTrip(s);
    SliceRoundTrip(t);
  }

  // ---- The range header

  function SkipSpace(h: string, i: nat): (j: nat)
    requires i <= |h|
    ensures i <= j <= |h|
    decreases |h| - i
  {
    if i < |h| && IsSpace(h[i]) then SkipSpace(h, i + 1) else i
  }

  function SkipDigits(h: string, i: nat): (j: nat)
    requires i <= |h|
    ensures i <= j <= |h|
    decreases |h| - i
  {
    if i < |h| && '0' <= h[i] <= '9' then SkipDigits(h, i + 1) else i
  }

  /** Optional space and `c` at `i`: the position behind the character. */
  function SkipMark(h: string, i: nat, c: char): (r: Option<nat>)
    requires i <= |h|
    ensures r.Some? ==> r.value <= |h|
  {
    var j := SkipSpace(h, i);
    if j < |h| && h[j] == c then Some(j + 1) else None
  }

  /** Optional space and digits at `i`: the number and the position behind it. */
  function ReadNumber(h: string, i: nat): (r: Option<(nat, nat)>)
    requires i <= |h|
    ensures r.Some? ==> r.value.1 <= |h|
  {
    var j := SkipSpace(h, i);
    var k := SkipDigits(h, j);
    if j < k then Some((Digits.Number(h[j..k], 10), k)) else None
  }

  const BYTES := "bytes"

  /** The single range of a header, if one starts at position `i`; more ranges behind it are not read. */
  function HeaderAt(h: string, i: nat): Option<(nat, nat)>
    requires i <= |h|
  {
    if |h| < i + |BYTES| || !SameLetters(h[i..i + |BYTES|], BYTES) then None
    else match SkipMark(h, i + |BYTES|, '=')
      case None => None
      case Some(a) => match ReadNumber(h, a)
        case None => None
        case Some(first) => match SkipMark(h, first.1, '-')
          case None => None
          case Some(b) => match ReadNumber(h, b)
            case None => None
            case Some(second) => Some((first.0, second.0))
  }

  /** The leftmost range of the header. */
  function ReadHeader(h: string, from: nat): Option<(nat, nat)>
    decreases |h| - from
  {
    if from > |h| then None else if HeaderAt(h, from).Some? then HeaderAt(h, from) else ReadHeader(h, from + 1)
  }

  function PrintHeader(s: Slice): string {
    BYTES + "=" + PrintSlice(s)
  }

  lemma {:induction false} DigitsThrough(h: string, i: nat, j: nat)
    requires i <= j <= |h| && (forall k :: i <= k < j ==> '0' <= h[k] <= '9')
    requires j == |h| || !('0' <= h[j] <= '9')
    ensures SkipDigits(h, i) == j
    decreases j - i
  {
    if i < j { DigitsThrough(h, i + 1, j); }
  }

  lemma NumberAt(h: string, i: nat, n: nat, j: nat)
    requires i <= j <= |h| && h[i..j] == Dec(n)
    requires j == |h| || !('0' <= h[j] <= '9')
    ensures ReadNumber(h, i) == Some((n, j))
  {
    DecNumber(n);
    forall k | i <= k < j ensures '0' <= h[k] <= '9' { assert h[k] == Dec(n)[k - i]; }
    DigitsThrough(h, i, j);
    assert h[i] == Dec(n)[0];
  }

  /** `h` is the header for `s`, its first number `d` characters long. */
  ghost predicate IsHeader(h: string, d: nat, s: Slice) {
    && |h| > |BYTES| + 1 + d
    && h[..|BYTES|] == BYTES && h[|BYTES|] == '='
    && h[|BYTES| + 1..|BYTES| + 1 + d] == Dec(s.start)
    && h[|BYTES| + 1 + d] == '-' && h[|BYTES| + 2 + d..] == Dec(s.end)
  }

  lemma HeaderPieces(s: Slice)
    ensures IsHeader(PrintHeader(s), |Dec(s.start)|, s)
  {
    var h := PrintHeader(s);
    assert h == (BYTES + "=") + Dec(s.start) + ("-" + Dec(s.end));
    Cut(BYTES + "=", Dec(s.start), "-" + Dec(s.end));
    assert h[|BYTES| + 2 + |Dec(s.start)|..] == Dec(s.end);
  }

  lemma NumbersRead(h: string, d: nat, s: Slice)
    requires IsHeader(h, d, s)
    ensures ReadNumber(h, |BYTES| + 1) == Some((s.start, |BYTES| + 1 + d))
    ensures ReadNumber(h, |BYTES| + 2 + d) == Some((s.end, |h|))
  {
    NumberAt(h, |BYTES| + 1, s.start, |BYTES| + 1 + d);
    assert h[|BYTES| + 2 + d..|h|] == h[|BYTES| + 2 + d..];
    NumberAt(h, |BYTES| + 2 + d, s.end, |h|);
  }

  lemma MarksRead(h: string, d: nat, s: Slice)
    requires IsHeader(h, d, s)
    ensures SkipMark(h, |BYTES|, '=') == Some(|BYTES| + 1)
    ensures SkipMark(h, |BYTES| + 1 + d, '-') == Some(|BYTES| + 2 + d)
    ensures SameLetters(h[0..0 + |BYTES|], BYTES)
  {
    assert h[0..0 + |BYTES|] == h[..|BYTES|];
  }

  /** A single-range header (section 2.1 of RFC 7233) gives back its slice. */
  lemma HeaderRoundTrip(s: Slice)
    ensures ReadHeader(PrintHeader(s), 0) == Some((s.start, s.end))
  {
    var h, d := PrintHeader(s), |Dec(s.start)|;
    HeaderPieces(s);
    NumbersRead(h, d, s);
    MarksRead(h, d, s);
    assert HeaderAt(h, 0) == Some((s.start, s.end));
  }

  // ---- The two worlds

  /** An absolute URL: host in lower case, non-empty path segments, and host, path and query together. */
  datatype Parts = Parts(host: string, segments: seq<string>, hostPathQuery: string)

  /** `parts` splits a URL; `isMedia` is the test for a media file extension, which needs a dot. */
  datatype Reader = Reader(parts: string -> Parts, isMedia: string -> bool)

  ghost predicate GoodReader(r: Reader) {
    forall t :: r.isMedia(t) ==> '.' in t
  }

  /** The tail length configured in the background; the page never receives it. */
  datatype World = Background(configured: Option<nat>) | Page

  const PAGE_TAIL := 56

  function Min(a: nat, b: nat): nat {
    if a < b then a else b
  }

  function Max(a: nat, b: nat): nat {
    if a > b then a else b
  }

  /** How much of an obfuscated path segment of length `n` is taken for stable. */
  function TailLength(w: World, n: nat): nat {
    match w
    case Page => Min(n, PAGE_TAIL)
    case Background(c) => if c.Some? && c.value > 16 then Min(n, c.value) else Min(n, Max(40, n * 55 / 100))
  }

  predicate IsBlobChar(c: char) {
    'A' <= c <= 'Z' || 'a' <= c <= 'z' || '0' <= c <= '9' || c == '+' || c == '/' || c == '_' || c == '=' || c == '-'
  }

  predicate IsBlob(r: Reader, segment: string) {
    |segment| >= 40 && !r.isMedia(segment) && '.' !in segment && forall i :: 0 <= i < |segment| ==>
      IsBlobChar(segment[i])
  }

  function Tail(w: World, segment: string): string {
    segment[|segment| - TailLength(w, |segment|)..]
  }

  function LastTwo(segments: seq<string>): string
    requires segments != []
  {
    var n := |segments|;
    if n == 1 then segments[0] else segments[n - 2] + "/" + segments[n - 1]
  }

  /** `buildMediaInvariantKey` of an absolute URL */
  function InvariantKey(w: World, r: Reader, p: Parts): Option<string> {
    if p.segments == [] then None
    else
      var last := p.segments[|p.segments| - 1];
      if r.isMedia(last) then Some("aegis|hls|" + p.host + "|" + LastTwo(p.segments))
      else if IsBlob(r, last) then Some("aegis|blob|" + p.host + "|" + Tail(w, last))
      else None
  }

  function StreamId(w: World, r: Reader, base: string): string {
    InvariantKey(w, r, r.parts(base)).GetOr(r.parts(base).hostPathQuery)
  }

  /** `buildByteRangeCacheKey` */
  function BuildKey(w: World, r: Reader, raw: string, s: Slice): Option<string> {
    var base := StripHash(raw);
    if base == "" || !Proper(s) then None else Some(RangeKey(StreamId(w, r, base), s))
  }

  /** `resolveByteRangeCacheKey` */
  function ResolveKey(w: World, r: Reader, raw: string, header: Option<string>): Option<string> {
    match ParseRef(raw)
    case Some(ref) => BuildKey(w, r, ref.url, ref.slice)
    case None =>
      if IsRangeKey(raw) then Some(raw)
      else match header
        case None => None
        case Some(h) => match ReadHeader(h, 0)
          case None => None
          case Some(range) => BuildKey(w, r, raw, Slice(range.0, range.1))
  }

  lemma NoRef(base: string)
    requires '#' !in base
    ensures ParseRef(base) == None
  {
    if LastIndex(base, '#') >= 0 { assert base[LastIndex(base, '#')] in base; }
  }

  /**
   The reference, the single-range header and the key builder name one slice of one URL by the same key,
   in either world; the key reads back to the slice whenever the URL has any stream id.
   */
  lemma RoutesAgree(w: World, r: Reader, base: string, s: Slice, header: Option<string>)
    requires base != "" && '#' !in base && !IsRangeKey(base) && Proper(s)
    ensures FormatRef(base, s).Some?
    ensures var key := RangeKey(StreamId(w, r, base), s);
      && BuildKey(w, r, base, s) == Some(key)
      && ResolveKey(w, r, FormatRef(base, s).value, header) == Some(key)
      && ResolveKey(w, r, base, Some(PrintHeader(s))) == Some(key)
      && (ParseRangeKey(key) == Some(Parsed(StreamId(w, r, base), s)) <==> StreamId(w, r, base) != "")
  {
    StripClean(base);
    RefRoundTrip(base, s);
    NoRef(base);
    HeaderRoundTrip(s);
    KeyRoundTrip(StreamId(w, r, base), s);
  }

  /** Two slices of one URL have the same key only if they are the same slice. */
  lemma SlicesNeverCollide(w: World, r: Reader, raw: string, s: Slice, t: Slice)
    requires BuildKey(w, r, raw, s).Some? && BuildKey(w, r, raw, s) == BuildKey(w, r, raw, t)
    ensures s == t
  {
    var id := StreamId(w, r, StripHash(raw));
    KeyInjective(id, s, id, t);
  }

  ghost predicate WorldsAgree(r: Reader, configured: Option<nat>) {
    forall p: Parts :: InvariantKey(Background(configured), r, p) == InvariantKey(Page, r, p)
  }

  function Blob(n: nat): string {
    seq(n, _ => 'A')
  }

  /** A path segment on which the two tail lengths differ. */
  function Witness(configured: Option<nat>): nat {
    if configured.Some? && configured.value > 16 then Max(configured.value, PAGE_TAIL) + 1 else 60
  }

  lemma TailsDiffer(configured: Option<nat>)
    requires configured != Some(PAGE_TAIL)
    ensures Witness(configured) >= 40
    ensures TailLength(Background(configured), Witness(configured)) != TailLength(Page, Witness(configured))
  {
  }

  /** The background and the page build the same key for every absolute URL exactly when 56 is configured. */
  lemma WorldsAgreeIff(r: Reader, configured: Option<nat>)
    requires GoodReader(r)
    ensures WorldsAgree(r, configured) <==> configured == Some(PAGE_TAIL)
  {
    if configured != Some(PAGE_TAIL) {
      var n := Witness(configured);
      var p := Parts("h", [Blob(n)], "");
      TailsDiffer(configured);
      assert '.' !in Blob(n);
      assert IsBlob(r, Blob(n));
      var x, y := InvariantKey(Background(configured), r, p), InvariantKey(Page, r, p);
      assert |x.value| != |y.value|;
    }
  }

  /** With 56 configured, every route to a range key gives the same key in both worlds. */
  lemma WorldsResolveAlike(r: Reader, raw: string, header: Option<string>)
    requires GoodReader(r)
    ensures ResolveKey(Background(Some(PAGE_TAIL)), r, raw, header) == ResolveKey(Page, r, raw, header)
  {
    forall base ensures StreamId(Background(Some(PAGE_TAIL)), r, base) == StreamId(Page, r, base) {
      WorldsAgreeIff(r, Some(PAGE_TAIL));
      assert InvariantKey(Background(Some(PAGE_TAIL)), r, r.parts(base)) == InvariantKey(Page, r, r.parts(base));
    }
  }

  // ---- Normalised references

  /** `normalizeSegmentRef` */
  function Normalize(raw: string): Option<string> {
    if raw == "" then None
    else match ParseRef(raw)
      case Some(ref) => FormatRef(ref.url, ref.slice)
      case None => if IsRangeKey(raw) then Some(raw) else Some(StripHash(raw))
  }

  lemma {:induction false} StripPrefix(raw: string)
    ensures StripHash(raw) <= raw
  {
    if raw != "" && raw[0] != '#' { StripPrefix(raw[1..]); }
  }

  lemma RangeKeyKeepsBase(raw: string)
    requires IsRangeKey(StripHash(raw))
    ensures IsRangeKey(raw)
  {
    StripPrefix(raw);
  }

  /** Normalising twice is normalising once, and keeps the slice. */
  lemma NormalizeIdempotent(raw: string)
    requires Normalize(raw).Some? && Normalize(raw).value != ""
    ensures Normalize(Normalize(raw).value) == Normalize(raw)
    ensures ParseRef(Normalize(raw).value) == ParseRef(raw)
  {
    if ParseRef(raw).Some? {
      var ref := ParseRef(raw).value;
      StripClean(ref.url);
      RefRoundTrip(ref.url, ref.slice);
    } else if !IsRangeKey(raw) {
      var base := StripHash(raw);
      NoRef(base);
      StripClean(base);
      if IsRangeKey(base) { RangeKeyKeepsBase(raw); }
    }
  }
}
