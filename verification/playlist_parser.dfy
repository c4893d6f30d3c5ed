/** The playlist parser as it runs: one object per parse, whose fields the line loop updates in place. */
module PlaylistParser {
  import opened OrderedMap
  import opened PlaylistSpec
  import opened PlaylistProofs

  class HlsParser {
    var variants: seq<Variant>
    var waiting: bool
    var meta: Option<Meta>
    var segments: seq<SegmentRef>
    var durations: seq<Option<real>>
    var marks: seq<bool>
    var pendingDuration: Option<real>
    var pendingDiscontinuity: bool
    var pendingRange: Option<Range>
    var nextOffset: nat
    var lastBare: Option<nat>
    var lastMediaUri: Option<Url>
    var mediaSequence: Option<nat>
    var hasEndList: bool

    constructor ()
      ensures Snapshot() == START
    {
      variants, waiting, meta := [], false, None;
      segments, durations, marks := [], [], [];
      pendingDuration, pendingDiscontinuity, pendingRange := None, false, None;
      nextOffset, lastBare, lastMediaUri := 0, None, None;
      mediaSequence, hasEndList := None, false;
    }

    ghost function Snapshot(): State
      reads this
    {
      State(variants, waiting, meta, segments, durations, marks, pendingDuration, pendingDiscontinuity,
            pendingRange, nextOffset, lastBare, lastMediaUri, mediaSequence, hasEndList)
    }

    /** The reference, and the running offset that goes with it. */
    method AddRef(url: Url, range: Option<Range>)
      modifies `segments, `nextOffset, `lastBare
      ensures range.Some? ==> segments == old(segments) + [RangedRef(url, range.value, old(nextOffset))]
      ensures range.Some? ==>
        nextOffset == RangeStart(range.value, old(nextOffset)) + range.value.length && lastBare == None
      ensures range.None? ==>
        segments == old(segments) + [Bare(url)] && nextOffset == 0 && lastBare == Some(|old(segments)|)
    {
      if range.Some? {
        var start := range.value.offset.GetOr(nextOffset);
        segments := segments + [Ranged(url, start, start + range.value.length - 1)];
        nextOffset := start + range.value.length;
        lastBare := None;
      } else {
        nextOffset := 0;
        segments := segments + [Bare(url)];
        lastBare := Some(|segments| - 1);
      }
    }

    /** The duration and the mark that were waiting for the segment. */
    method TakePending()
      modifies `durations, `marks, `pendingDuration, `pendingDiscontinuity, `pendingRange
      ensures durations == old(durations) + [old(pendingDuration)] && marks == old(marks) + [old(pendingDiscontinuity)]
      ensures pendingDuration == None && !pendingDiscontinuity && pendingRange == None
    {
      durations := durations + [pendingDuration];
      marks := marks + [pendingDiscontinuity];
      pendingDiscontinuity := false;
      pendingDuration := None;
      pendingRange := None;
    }

    method PushSegment(url: Url, range: Option<Range>)
      modifies `segments, `nextOffset, `lastBare, `lastMediaUri, `durations, `marks, `pendingDuration,
        `pendingDiscontinuity, `pendingRange
      ensures Snapshot() == Push(old(Snapshot()), url, range)
    {
      AddRef(url, range);
      lastMediaUri := Some(url);
      TakePending();
    }

    method FlushOmittedUriSegment()
      modifies `segments, `nextOffset, `lastBare, `lastMediaUri, `durations, `marks, `pendingDuration,
        `pendingDiscontinuity, `pendingRange
      ensures Snapshot() == Flush(old(Snapshot()))
    {
      if lastMediaUri.Some? && pendingRange.Some? { PushSegment(lastMediaUri.value, pendingRange); }
    }

    method ByteRangeLine(r: Range)
      modifies this
      ensures Snapshot() == TakeRange(old(Snapshot()), r)
    {
      if lastBare.Some? && lastBare.value < |segments| && pendingRange.None? {
        var bareUrl := segments[lastBare.value].url;
        var start := r.offset.GetOr(nextOffset);
        segments := segments[lastBare.value := Ranged(bareUrl, start, start + r.length - 1)];
        nextOffset := start + r.length;
        lastBare := None;
        lastMediaUri := Some(bareUrl);
        return;
      }
      FlushOmittedUriSegment();
      pendingRange := Some(r);
    }

    method MapLine(uri: Option<Url>, range: Option<Range>)
      modifies this
      ensures Snapshot() == TakeMap(old(Snapshot()), uri, range)
    {
      if uri.Some? { lastMediaUri := uri; }
      if range.Some? {
        var start := range.value.offset.GetOr(0);
        nextOffset := start + range.value.length;
      }
    }

    method UriLine(url: Url)
      modifies this
      ensures Snapshot() == TakeUri(old(Snapshot()), url)
    {
      if waiting {
        var m := meta.GetOr(Meta(0, None));
        variants := variants + [Full(url, m, LabelOf(m, |variants|))];
        waiting := false;
        meta := None;
      } else {
        PushSegment(url, pendingRange);
      }
    }

    /** One turn of the line loop. */
    method TakeLine(line: Line)
      modifies this
      ensures Snapshot() == Step(old(Snapshot()), line)
    {
      match line
      case EndList =>
        FlushOmittedUriSegment();
        hasEndList := true;
      case MediaSequence(n) =>
        if n.Some? { mediaSequence := n; }
      case Discontinuity | DiscontinuitySequence =>
        FlushOmittedUriSegment();
        pendingDiscontinuity := true;
      case ExtInf(d) =>
        FlushOmittedUriSegment();
        pendingDuration := d;
      case ByteRange(r) =>
        if r.Some? { ByteRangeLine(r.value); }
      case StreamInf(bandwidth, resolution) =>
        waiting := true;
        meta := Some(Meta(bandwidth, resolution));
      case IFrameStreamInf(uri) =>
        if uri.Some? { variants := variants + [Plain(uri.value)]; }
      case MapTag(uri, range) =>
        MapLine(uri, range);
      case OtherTag =>
      case Uri(url) =>
        if url.Some? { UriLine(url.value); } else { waiting := false; }
    }

    method TakeLines(lines: seq<Line>)
      modifies this
      ensures Snapshot() == Steps(old(Snapshot()), lines)
    {
      for i := 0 to |lines|
        invariant Steps(Snapshot(), lines[i..]) == Steps(old(Snapshot()), lines)
      {
        assert lines[i..][1..] == lines[i + 1..];
        TakeLine(lines[i]);
      }
    }
  }

  method TotalDuration(durations: seq<Option<real>>) returns (total: real)
    ensures total == Positives(durations)
  {
    total := 0.0;
    for i := 0 to |durations|
      invariant total == Positives(durations[..i])
    {
      assert durations[..i + 1][..i] == durations[..i];
      if durations[i].Some? && durations[i].value > 0.0 { total := total + durations[i].value; }
    }
    assert durations[..|durations|] == durations;
  }

  lemma ListsSnoc(front: seq<Variant>, last: Variant, url: Url)
    ensures Lists(front + [last], url) <==> Lists(front, url) || last.url == url
  {
    var all := front + [last];
    assert all[|front|] == last;
    if Lists(front, url) {
      var i :| 0 <= i < |front| && front[i].url == url;
      assert all[i].url == url;
    }
  }

  method UniqueVariants(variants: seq<Variant>) returns (unique: seq<Variant>)
    ensures unique == Unique(variants)
  {
    unique := [];
    var seen: set<Url> := {};
    for i := 0 to |variants|
      invariant unique == Unique(variants[..i])
      invariant forall url :: url in seen <==> Lists(unique, url)
    {
      assert variants[..i + 1][..i] == variants[..i];
      var url := variants[i].url;
      assert url in seen <==> exists k :: 0 <= k < |unique| && unique[k].url == url;
      if url !in seen {
        ghost var front := unique;
        seen := seen + {url};
        unique := unique + [Listed(variants[i], |unique|)];
        forall u ensures u in seen <==> Lists(unique, u) {
          ListsSnoc(front, unique[|front|], u);
        }
      }
    }
    assert variants[..|variants|] == variants;
  }

  /** `parseHlsPlaylist`, behind the test for the #EXTM3U header. */
  method ParseHlsPlaylist(header: bool, lines: seq<Line>) returns (p: Playlist)
    ensures p == Parse(header, lines)
  {
    if !header { return Invalid; }
    var parser := new HlsParser();
    parser.TakeLines(lines);
    parser.FlushOmittedUriSegment();
    var total := TotalDuration(parser.durations);
    if |parser.variants| > 0 && |parser.segments| == 0 {
      var unique := UniqueVariants(parser.variants);
      return Master(unique);
    }
    p := Media(parser.segments, !parser.hasEndList, parser.durations, parser.marks, parser.mediaSequence,
               if total > 0.0 then Some(total) else None);
  }
}
