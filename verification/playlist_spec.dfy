/**
 The HLS media playlist parser on classified lines.  A line is what the parser's prefix tests and
 regular expressions make of it; URLs are already absolute and without a fragment, or absent when they
 do not resolve.
 */
module PlaylistSpec {
  import opened OrderedMap

  type Url = string

  /** The value of a BYTERANGE tag; a zero or unreadable length gives no range at all. */
  datatype Range = Range(length: Positive, offset: Option<nat>)

  type Positive = n: nat | n > 0 witness 1

  datatype Line =
    | EndList
    | MediaSequence(number: Option<nat>)
    | Discontinuity
    | DiscontinuitySequence
    | ExtInf(duration: Option<real>)
    | ByteRange(range: Option<Range>)
    | StreamInf(bandwidth: nat, resolution: Option<string>)
    | IFrameStreamInf(uri: Option<Url>)
    | MapTag(uri: Option<Url>, range: Option<Range>)
    | OtherTag
    | Uri(url: Option<Url>)

  /** A segment reference: a URL, alone or with a byte range (both ends included). */
  datatype SegmentRef = Bare(url: Url) | Ranged(url: Url, start: nat, end: nat)

  datatype Meta = Meta(bandwidth: nat, resolution: Option<string>)

  datatype Label = Resolution(text: string) | Megabits(n: nat) | Kilobits(n: nat) | Numbered(n: nat)

  datatype Variant = Plain(url: Url) | Full(url: Url, meta: Meta, name: Label)

  /** The parser's local variables. */
  datatype State = State(
    variants: seq<Variant>, waiting: bool, meta: Option<Meta>,
    segments: seq<SegmentRef>, durations: seq<Option<real>>, marks: seq<bool>,
    pendingDuration: Option<real>, pendingDiscontinuity: bool, pendingRange: Option<Range>,
    nextOffset: nat, lastBare: Option<nat>, lastMediaUri: Option<Url>,
    mediaSequence: Option<nat>, hasEndList: bool)

  const START := State([], false, None, [], [], [], None, false, None, 0, None, None, None, false)

  function RangeStart(r: Range, nextOffset: nat): nat {
    r.offset.GetOr(nextOffset)
  }

  function RangedRef(url: Url, r: Range, nextOffset: nat): SegmentRef {
    Ranged(url, RangeStart(r, nextOffset), RangeStart(r, nextOffset) + r.length - 1)
  }

  /** `pushSegment` */
  function Push(s: State, url: Url, range: Option<Range>): State {
    var cleared := s.(
      durations := s.durations + [s.pendingDuration], marks := s.marks + [s.pendingDiscontinuity],
      pendingDuration := None, pendingDiscontinuity := false, pendingRange := None, lastMediaUri := Some(url));
    match range
    case Some(r) => cleared.(segments := s.segments + [RangedRef(url, r, s.nextOffset)],
                             nextOffset := RangeStart(r, s.nextOffset) + r.length, lastBare := None)
    case None => cleared.(segments := s.segments + [Bare(url)], nextOffset := 0, lastBare := Some(|s.segments|))
  }

  /** `flushOmittedUriSegment`: an EXTINF and BYTERANGE whose URI was left out reuse the last URI. */
  function Flush(s: State): State {
    if s.lastMediaUri.Some? && s.pendingRange.Some? then Push(s, s.lastMediaUri.value, s.pendingRange) else s
  }

  /** A BYTERANGE after a bare URI turns that segment into a ranged one. */
  function Patch(s: State, i: nat, r: Range): State
    requires i < |s.segments|
  {
    var url := s.segments[i].url;
    s.(segments := s.segments[i := RangedRef(url, r, s.nextOffset)],
       nextOffset := RangeStart(r, s.nextOffset) + r.length, lastBare := None, lastMediaUri := Some(url))
  }

  function TakeRange(s: State, r: Range): State {
    if s.lastBare.Some? && s.lastBare.value < |s.segments| && s.pendingRange.None? then Patch(s, s.lastBare.value, r)
    else Flush(s).(pendingRange := Some(r))
  }

  function TakeMap(s: State, uri: Option<Url>, range: Option<Range>): State {
    s.(lastMediaUri := if uri.Some? then uri else s.lastMediaUri,
       nextOffset := match range case Some(r) => RangeStart(r, 0) + r.length case None => s.nextOffset)
  }

  /** `Math.round(a / b)` for non-negative `a` */
  function Rounded(a: nat, b: Positive): nat {
    (2 * a + b) / (2 * b)
  }

  function LabelOf(m: Meta, count: nat): Label {
    if m.resolution.Some? then Resolution(m.resolution.value)
    else if m.bandwidth >= 1_000_000 then Megabits(Rounded(m.bandwidth, 1_000_000))
    else if m.bandwidth > 0 then Kilobits(Rounded(m.bandwidth, 1_000))
    else Numbered(count + 1)
  }

  function TakeUri(s: State, url: Url): State {
    if s.waiting then
      var m := s.meta.GetOr(Meta(0, None));
      s.(variants := s.variants + [Full(url, m, LabelOf(m, |s.variants|))], waiting := false, meta := None)
    else Push(s, url, s.pendingRange)
  }

  function Step(s: State, line: Line): State {
    match line
    case EndList => Flush(s).(hasEndList := true)
    case MediaSequence(n) => if n.Some? then s.(mediaSequence := n) else s
    // The test is for the prefix that both tags share.
    case Discontinuity | DiscontinuitySequence => Flush(s).(pendingDiscontinuity := true)
    case ExtInf(d) => Flush(s).(pendingDuration := d)
    case ByteRange(r) => if r.Some? then TakeRange(s, r.value) else s
    case StreamInf(b, r) => s.(waiting := true, meta := Some(Meta(b, r)))
    case IFrameStreamInf(u) => if u.Some? then s.(variants := s.variants + [Plain(u.value)]) else s
    case MapTag(u, r) => TakeMap(s, u, r)
    case OtherTag => s
    case Uri(u) => if u.Some? then TakeUri(s, u.value) else s.(waiting := false)
  }

  function Steps(s: State, lines: seq<Line>): State
    decreases |lines|
  {
    if lines == [] then s else Steps(Step(s, lines[0]), lines[1..])
  }

  // ---- The result

  datatype Playlist =
    | Invalid
    | Master(variants: seq<Variant>)
    | Media(segments: seq<SegmentRef>, isLive: bool, durations: seq<Option<real>>, marks: seq<bool>,
            mediaSequence: Option<nat>, totalDuration: Option<real>)

  function PositivePart(d: Option<real>): real {
    match d
    case Some(x) => if x > 0.0 then x else 0.0
    case None => 0.0
  }

  function Positives(durations: seq<Option<real>>): real {
    if durations == [] then 0.0
    else Positives(durations[..|durations| - 1]) + PositivePart(durations[|durations| - 1])
  }

  /** An I-frame variant gets a numbered label when it is listed. */
  function Listed(v: Variant, count: nat): Variant {
    match v
    case Plain(url) => Full(url, Meta(0, None), Numbered(count + 1))
    case Full(_, _, _) => v
  }

  /** The first variant of each URL, in order. */
  function Unique(variants: seq<Variant>): seq<Variant> {
    if variants == [] then []
    else
      var front, last := Unique(variants[..|variants| - 1]), variants[|variants| - 1];
      if exists i :: 0 <= i < |front| && front[i].url == last.url then front else front + [Listed(last, |front|)]
  }

  function Finish(s: State): Playlist {
    var total := Positives(s.durations);
    if s.variants != [] && s.segments == [] then Master(Unique(s.variants))
    else Media(s.segments, !s.hasEndList, s.durations, s.marks, s.mediaSequence,
      if total > 0.0 then Some(total) else None)
  }

  /** `header`: the text starts with #EXTM3U. */
  function Parse(header: bool, lines: seq<Line>): Playlist {
    if !header then Invalid else Finish(Flush(Steps(START, lines)))
  }
}
