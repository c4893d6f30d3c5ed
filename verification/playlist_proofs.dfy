/**
 What parsing means: a printer for every concrete form of a segment that the parser accepts, the exact
 condition under which each form reads back, and what holds for arbitrary lines.
 */
module PlaylistProofs {
  import opened OrderedMap
  import opened PlaylistSpec

  // ---- Arbitrary lines

  predicate GoodRef(r: SegmentRef) {
    r.Ranged? ==> r.start <= r.end
  }

  /** The three result lists grow together, and the bare segment open for patching is the last one. */
  ghost predicate Aligned(s: State) {
    && |s.segments| == |s.durations| == |s.marks|
    && (s.lastBare.Some? ==> s.lastBare.value + 1 == |s.segments| && s.segments[s.lastBare.value].Bare?)
    && (s.lastBare.Some? ==> s.lastMediaUri.Some?)
    && forall i :: 0 <= i < |s.segments| ==> GoodRef(s.segments[i])
  }

  lemma PushAligned(s: State, url: Url, range: Option<Range>)
    requires Aligned(s)
    ensures Aligned(Push(s, url, range))
  {
  }

  lemma PatchAligned(s: State, i: nat, r: Range)
    requires Aligned(s) && i < |s.segments|
    ensures Aligned(Patch(s, i, r))
  {
  }

  lemma FlushAligned(s: State)
    requires Aligned(s)
    ensures Aligned(Flush(s))
  {
    if s.lastMediaUri.Some? { PushAligned(s, s.lastMediaUri.value, s.pendingRange); }
  }

  lemma RangeAligned(s: State, r: Range)
    requires Aligned(s)
    ensures Aligned(TakeRange(s, r))
  {
    if s.lastBare.Some? { PatchAligned(s, s.lastBare.value, r); }
    FlushAligned(s);
  }

  lemma UriAligned(s: State, url: Url)
    requires Aligned(s)
    ensures Aligned(TakeUri(s, url))
  {
    if !s.waiting { PushAligned(s, url, s.pendingRange); }
  }

  lemma StepAligned(s: State, line: Line)
    requires Aligned(s)
    ensures Aligned(Step(s, line))
  {
    match line
    case ByteRange(r) => if r.Some? { RangeAligned(s, r.value); }
    case Uri(u) => if u.Some? { UriAligned(s, u.value); }
    case EndList => FlushAligned(s);
    case ExtInf(_) => FlushAligned(s);
    case Discontinuity | DiscontinuitySequence => FlushAligned(s);
    case _ =>
  }

  lemma {:induction false} StepsAligned(s: State, lines: seq<Line>)
    requires Aligned(s)
    ensures Aligned(Steps(s, lines))
    decreases |lines|
  {
    if lines != [] {
      StepAligned(s, lines[0]);
      StepsAligned(Step(s, lines[0]), lines[1..]);
    }
  }

  /** For every line sequence the three lists of the result have one length and every range is proper. */
  lemma ParseAligned(header: bool, lines: seq<Line>)
    ensures var p := Parse(header, lines); p.Media? ==>
      && |p.segments| == |p.durations| == |p.marks|
      && forall i :: 0 <= i < |p.segments| ==> GoodRef(p.segments[i])
  {
    StepsAligned(START, lines);
  }

  lemma {:induction false} StepsConcat(s: State, a: seq<Line>, b: seq<Line>)
    ensures Steps(s, a + b) == Steps(Steps(s, a), b)
    decreases |a|
  {
    if a == [] {
      assert a + b == b;
    } else {
      assert (a + b)[1..] == a[1..] + b;
      StepsConcat(Step(s, a[0]), a[1..], b);
    }
  }

  function WithoutOtherTags(lines: seq<Line>): seq<Line> {
    if lines == [] then []
    else (if lines[0] == OtherTag then [] else [lines[0]]) + WithoutOtherTags(lines[1..])
  }

  lemma StepsOne(s: State, a: Line)
    ensures Steps(s, [a]) == Step(s, a)
  {
    assert [a][1..] == [];
  }

  /** Comments and unknown tags change nothing, wherever they stand. */
  lemma {:induction false} OtherTagsIgnored(s: State, lines: seq<Line>)
    ensures Steps(s, WithoutOtherTags(lines)) == Steps(s, lines)
    decreases |lines|
  {
    if lines != [] {
      OtherTagsIgnored(Step(s, lines[0]), lines[1..]);
      if lines[0] != OtherTag {
        StepsConcat(s, [lines[0]], WithoutOtherTags(lines[1..]));
        StepsOne(s, lines[0]);
      } else {
        assert [] + WithoutOtherTags(lines[1..]) == WithoutOtherTags(lines[1..]);
      }
    }
  }

  // ---- The printer

  /**
   The forms of one segment.  `Before` is the standard one; `NoUri` leaves out a URI equal to the last
   one; `After` puts the BYTERANGE behind the URI.  `omit` leaves out the offset.
   */
  datatype Form = Before(omit: bool) | NoUri(omit: bool) | After(omit: bool)

  datatype Item = Item(ref: SegmentRef, form: Form, duration: Option<real>, discontinuity: bool)

  function RangeTag(r: SegmentRef, omit: bool): Line
    requires r.Ranged? && r.start <= r.end
  {
    ByteRange(Some(Range(r.end - r.start + 1, if omit then None else Some(r.start))))
  }

  /** The lines behind the EXTINF. */
  function Body(item: Item): seq<Line>
    requires GoodRef(item.ref)
  {
    var r := item.ref;
    if r.Bare? then [Uri(Some(r.url))]
    else match item.form
      case Before(omit) => [RangeTag(r, omit), Uri(Some(r.url))]
      case NoUri(omit) => [RangeTag(r, omit)]
      case After(omit) => [Uri(Some(r.url)), RangeTag(r, omit)]
  }

  function PrintItem(item: Item): seq<Line>
    requires GoodRef(item.ref)
  {
    (if item.discontinuity then [Discontinuity] else []) + [ExtInf(item.duration)] + Body(item)
  }

  /** What a segment must add to the parser's state. */
  function Append(s: State, item: Item): State
    requires GoodRef(item.ref)
  {
    s.(segments := s.segments + [item.ref], durations := s.durations + [item.duration],
       marks := s.marks + [item.discontinuity], lastMediaUri := Some(item.ref.url),
       nextOffset := if item.ref.Bare? then 0 else item.ref.end + 1,
       lastBare := if item.ref.Bare? then Some(|s.segments|) else None)
  }

  /** The form says what it should in the state it is printed after. */
  predicate Fits(s: State, item: Item) {
    var r := item.ref;
    r.Bare? ||
    match item.form
    case Before(omit) => s.lastBare.None? && (omit ==> r.start == s.nextOffset)
    case NoUri(omit) => s.lastBare.None? && s.lastMediaUri == Some(r.url) && (omit ==> r.start == s.nextOffset)
    case After(omit) => omit ==> r.start == 0
  }

  /** Between segments: nothing is pending. */
  ghost predicate Ready(s: State) {
    s.pendingRange.None? && s.pendingDuration.None? && !s.pendingDiscontinuity && !s.waiting
  }

  /** EXTINF (after an optional DISCONTINUITY) completes a segment whose URI was left out. */
  function Opened(s: State, item: Item): State {
    Flush(s).(pendingDuration := item.duration, pendingDiscontinuity := item.discontinuity)
  }

  lemma HeadOpens(s: State, item: Item)
    requires GoodRef(item.ref) && Ready(Flush(s))
    ensures Steps(s, PrintItem(item)) == Steps(Opened(s, item), Body(item))
  {
    var head := (if item.discontinuity then [Discontinuity] else []) + [ExtInf(item.duration)];
    StepsConcat(s, head, Body(item));
    assert Flush(Flush(s)) == Flush(s);
    if item.discontinuity {
      var d := Step(s, Discontinuity);
      assert head == [Discontinuity, ExtInf(item.duration)];
      assert head[1..] == [ExtInf(item.duration)];
      assert head[1..][1..] == [];
      assert Flush(d) == d;
      assert Steps(s, head) == Steps(d, head[1..]) == Steps(Step(d, ExtInf(item.duration)), []);
    } else {
      assert head == [ExtInf(item.duration)];
      assert head[1..] == [];
    }
  }

  lemma StepsTwo(s: State, a: Line, b: Line)
    ensures Steps(s, [a, b]) == Step(Step(s, a), b)
  {
    assert [a, b][1..] == [b];
    StepsOne(Step(s, a), b);
  }

  lemma BeforeIff(s: State, item: Item)
    requires GoodRef(item.ref) && Aligned(s) && Ready(s) && item.ref.Ranged? && item.form.Before?
    ensures var tagged := Step(Opened(s, item), RangeTag(item.ref, item.form.omit));
      Flush(Step(tagged, Uri(Some(item.ref.url)))) == Append(s, item) <==> Fits(s, item)
  {
    var tagged := Step(Opened(s, item), RangeTag(item.ref, item.form.omit));
    var done := Step(tagged, Uri(Some(item.ref.url)));
    assert Flush(done) == done;
    assert done.segments[|s.segments|] == Append(s, item).segments[|s.segments|] <==> Fits(s, item);
  }

  lemma NoUriIff(s: State, item: Item)
    requires GoodRef(item.ref) && Aligned(s) && Ready(s) && item.ref.Ranged? && item.form.NoUri?
    ensures Flush(Step(Opened(s, item), RangeTag(item.ref, item.form.omit))) == Append(s, item) <==> Fits(s, item)
  {
    var done := Flush(Step(Opened(s, item), RangeTag(item.ref, item.form.omit)));
    if s.lastBare.None? && s.lastMediaUri.Some? {
      assert done.segments[|s.segments|] == Append(s, item).segments[|s.segments|] <==> Fits(s, item);
    } else {
      assert |done.segments| == |s.segments|;
    }
  }

  lemma AfterIff(s: State, item: Item)
    requires GoodRef(item.ref) && Aligned(s) && Ready(s) && item.ref.Ranged? && item.form.After?
    ensures var pushed := Step(Opened(s, item), Uri(Some(item.ref.url)));
      Flush(Step(pushed, RangeTag(item.ref, item.form.omit))) == Append(s, item) <==> Fits(s, item)
  {
    var pushed := Step(Opened(s, item), Uri(Some(item.ref.url)));
    var done := Step(pushed, RangeTag(item.ref, item.form.omit));
    assert pushed.segments == s.segments + [Bare(item.ref.url)];
    assert Flush(done) == done;
    assert done.segments[|s.segments|] == Append(s, item).segments[|s.segments|] <==> Fits(s, item);
    assert done.segments == s.segments + [done.segments[|s.segments|]];
  }

  /** A form reads back as its segment, and changes nothing else, exactly when it fits. */
  lemma BodyIff(s: State, item: Item)
    requires GoodRef(item.ref) && Aligned(s) && Ready(s)
    ensures Flush(Steps(Opened(s, item), Body(item))) == Append(s, item) <==> Fits(s, item)
  {
    var o := Opened(s, item);
    var r := item.ref;
    if r.Bare? {
      StepsOne(o, Uri(Some(r.url)));
    } else {
      match item.form
      case Before(omit) =>
        StepsTwo(o, RangeTag(r, omit), Uri(Some(r.url)));
        BeforeIff(s, item);
      case NoUri(omit) =>
        StepsOne(o, RangeTag(r, omit));
        NoUriIff(s, item);
      case After(omit) =>
        StepsTwo(o, Uri(Some(r.url)), RangeTag(r, omit));
        AfterIff(s, item);
    }
  }

  /** The lines of an item, in whatever state the previous item left, read back exactly when the form fits. */
  lemma ItemIff(s: State, item: Item)
    requires GoodRef(item.ref) && Aligned(s) && Ready(Flush(s))
    ensures Flush(Steps(s, PrintItem(item))) == Append(Flush(s), item) <==> Fits(Flush(s), item)
  {
    HeadOpens(s, item);
    assert Aligned(Flush(s));
    assert Opened(s, item) == Opened(Flush(s), item);
    BodyIff(Flush(s), item);
  }

  // ---- Whole playlists

  datatype Header = Header(mapTag: Option<Line>, mediaSequence: Option<nat>)

  datatype Document = Document(header: Header, items: seq<Item>, ended: bool)

  predicate GoodHeader(h: Header) {
    h.mapTag.Some? ==> h.mapTag.value.MapTag?
  }

  predicate GoodItems(items: seq<Item>) {
    forall i :: 0 <= i < |items| ==> GoodRef(items[i].ref)
  }

  function PrintHeader(h: Header): seq<Line> {
    (if h.mapTag.Some? then [h.mapTag.value] else []) +
    (if h.mediaSequence.Some? then [MediaSequence(h.mediaSequence)] else [])
  }

  function PrintItems(items: seq<Item>): seq<Line>
    requires GoodItems(items)
  {
    if items == [] then [] else PrintItems(items[..|items| - 1]) + PrintItem(items[|items| - 1])
  }

  function Print(d: Document): seq<Line>
    requires GoodItems(d.items)
  {
    PrintHeader(d.header) + PrintItems(d.items) + if d.ended then [EndList] else []
  }

  function AfterHeader(h: Header): State {
    var s := START.(mediaSequence := h.mediaSequence);
    if h.mapTag.Some? && h.mapTag.value.MapTag? then TakeMap(s, h.mapTag.value.uri, h.mapTag.value.range) else s
  }

  function AppendAll(s: State, items: seq<Item>): State
    requires GoodItems(items)
  {
    if items == [] then s else Append(AppendAll(s, items[..|items| - 1]), items[|items| - 1])
  }

  /** Every form fits behind the segments before it. */
  predicate AllFit(s: State, items: seq<Item>)
    requires GoodItems(items)
  {
    items == [] ||
    (AllFit(s, items[..|items| - 1]) && Fits(AppendAll(s, items[..|items| - 1]), items[|items| - 1]))
  }

  lemma HeaderReads(h: Header)
    requires GoodHeader(h)
    ensures Steps(START, PrintHeader(h)) == AfterHeader(h)
  {
    if h.mapTag.Some? && h.mediaSequence.Some? {
      StepsTwo(START, h.mapTag.value, MediaSequence(h.mediaSequence));
      assert PrintHeader(h) == [h.mapTag.value, MediaSequence(h.mediaSequence)];
    } else if h.mapTag.Some? {
      StepsOne(START, h.mapTag.value);
      assert PrintHeader(h) == [h.mapTag.value];
    } else if h.mediaSequence.Some? {
      StepsOne(START, MediaSequence(h.mediaSequence));
      assert PrintHeader(h) == [MediaSequence(h.mediaSequence)];
    }
  }

  lemma {:induction false} AppendAllReady(s: State, items: seq<Item>)
    requires GoodItems(items) && Ready(s)
    ensures Ready(AppendAll(s, items))
  {
    if items != [] { AppendAllReady(s, items[..|items| - 1]); }
  }

  lemma {:induction false} ItemsRead(s: State, items: seq<Item>)
    requires GoodItems(items) && Aligned(s) && Ready(s) && AllFit(s, items)
    ensures Flush(Steps(s, PrintItems(items))) == AppendAll(s, items)
  {
    if items != [] {
      var front, last := items[..|items| - 1], items[|items| - 1];
      ItemsRead(s, front);
      StepsConcat(s, PrintItems(front), PrintItem(last));
      StepsAligned(s, PrintItems(front));
      AppendAllReady(s, front);
      ItemIff(Steps(s, PrintItems(front)), last);
    }
  }

  function Refs(items: seq<Item>): seq<SegmentRef> {
    seq(|items|, i requires 0 <= i < |items| => items[i].ref)
  }

  function Durations(items: seq<Item>): seq<Option<real>> {
    seq(|items|, i requires 0 <= i < |items| => items[i].duration)
  }

  function Marks(items: seq<Item>): seq<bool> {
    seq(|items|, i requires 0 <= i < |items| => items[i].discontinuity)
  }

  lemma {:induction false} AppendAllLists(s: State, items: seq<Item>)
    requires GoodItems(items)
    ensures var r := AppendAll(s, items);
      && r.segments == s.segments + Refs(items)
      && r.durations == s.durations + Durations(items)
      && r.marks == s.marks + Marks(items)
      && r.variants == s.variants && r.mediaSequence == s.mediaSequence && r.hasEndList == s.hasEndList
  {
    if items != [] {
      var front := items[..|items| - 1];
      AppendAllLists(s, front);
      assert Refs(items) == Refs(front) + [items[|items| - 1].ref];
      assert Durations(items) == Durations(front) + [items[|items| - 1].duration];
      assert Marks(items) == Marks(front) + [items[|items| - 1].discontinuity];
    }
  }

  lemma EndReads(t: State)
    ensures Flush(Step(t, EndList)) == Flush(t).(hasEndList := true)
  {
  }

  lemma LinesRead(d: Document)
    requires GoodHeader(d.header) && GoodItems(d.items) && AllFit(AfterHeader(d.header), d.items)
    ensures Flush(Steps(START, Print(d))) == AppendAll(AfterHeader(d.header), d.items).(hasEndList := d.ended)
  {
    var h, b, e := PrintHeader(d.header), PrintItems(d.items), if d.ended then [EndList] else [];
    var s := AfterHeader(d.header);
    StepsConcat(START, h + b, e);
    StepsConcat(START, h, b);
    HeaderReads(d.header);
    ItemsRead(s, d.items);
    AppendAllLists(s, d.items);
    var t := Steps(s, b);
    if d.ended {
      StepsOne(t, EndList);
      EndReads(t);
    }
  }

  /**
   Parsing a printed playlist gives back its segments, durations and marks, whichever fitting mix of
   forms it was printed in.
   */
  lemma ParsePrint(d: Document)
    requires GoodHeader(d.header) && GoodItems(d.items) && AllFit(AfterHeader(d.header), d.items)
    ensures var total := Positives(Durations(d.items));
      Parse(true, Print(d)) == Media(Refs(d.items), !d.ended, Durations(d.items), Marks(d.items),
                                     d.header.mediaSequence, if total > 0.0 then Some(total) else None)
  {
    LinesRead(d);
    var s, r := AfterHeader(d.header), AppendAll(AfterHeader(d.header), d.items);
    AppendAllLists(s, d.items);
    assert s.segments == [] && s.durations == [] && s.marks == [];
    assert [] + Refs(d.items) == Refs(d.items);
    assert [] + Durations(d.items) == Durations(d.items);
    assert [] + Marks(d.items) == Marks(d.items);
  }

  // ---- The condition, read off the document

  function OffsetBefore(h: Header, items: seq<Item>, i: nat): nat
    requires i < |items|
  {
    if i == 0 then AfterHeader(h).nextOffset
    else if items[i - 1].ref.Bare? then 0
    else items[i - 1].ref.end + 1
  }

  function UriBefore(h: Header, items: seq<Item>, i: nat): Option<Url>
    requires i < |items|
  {
    if i == 0 then AfterHeader(h).lastMediaUri else Some(items[i - 1].ref.url)
  }

  /**
   A BYTERANGE in front of the URI, or instead of it, must not follow a bare segment, which it would
   patch; an omitted offset must be the running one (behind the URI: 0); an omitted URI must be the last.
   */
  predicate Readable(h: Header, items: seq<Item>, i: nat)
    requires i < |items|
  {
    var r, form := items[i].ref, items[i].form;
    r.Bare? ||
    if form.After? then form.omit ==> r.start == 0
    else
      && (i > 0 ==> items[i - 1].ref.Ranged?)
      && (form.omit ==> r.start == OffsetBefore(h, items, i))
      && (form.NoUri? ==> UriBefore(h, items, i) == Some(r.url))
  }

  lemma ReadablePrefix(h: Header, items: seq<Item>, i: nat)
    requires i + 1 < |items|
    ensures Readable(h, items[..|items| - 1], i) == Readable(h, items, i)
  {
  }

  lemma FitsIff(h: Header, items: seq<Item>)
    requires GoodHeader(h) && GoodItems(items) && items != []
    ensures Fits(AppendAll(AfterHeader(h), items[..|items| - 1]), items[|items| - 1]) <==>
      Readable(h, items, |items| - 1)
  {
    var n := |items| - 1;
    if n > 0 {
      assert items[..n][n - 1] == items[n - 1];
    }
  }

  lemma {:induction false} AllFitIff(h: Header, items: seq<Item>)
    requires GoodHeader(h) && GoodItems(items)
    ensures AllFit(AfterHeader(h), items) <==>
      forall i {:trigger Readable(h, items, i)} :: 0 <= i < |items| ==> Readable(h, items, i)
  {
    if items != [] {
      var n := |items| - 1;
      var front := items[..n];
      AllFitIff(h, front);
      forall i: nat | i < n ensures Readable(h, front, i) == Readable(h, items, i) {
        ReadablePrefix(h, items, i);
      }
      FitsIff(h, items);
      if AllFit(AfterHeader(h), items) {
        forall i: nat | i < |items| ensures Readable(h, items, i) {
          if i < n { assert Readable(h, front, i); }
        }
      }
      if forall i {:trigger Readable(h, items, i)} :: 0 <= i < |items| ==> Readable(h, items, i) {
        forall i: nat | i < n ensures Readable(h, front, i) { assert Readable(h, items, i); }
        assert Readable(h, items, n);
      }
    }
  }

  /** Printed in readable forms, a playlist means its segments, durations and marks, whatever the forms. */
  lemma FormsAgree(d: Document, e: Document)
    requires GoodHeader(d.header) && GoodItems(d.items)
    requires GoodHeader(e.header) && GoodItems(e.items)
    requires forall i {:trigger Readable(d.header, d.items, i)} :: 0 <= i < |d.items| ==> Readable(d.header, d.items, i)
    requires forall i {:trigger Readable(e.header, e.items, i)} :: 0 <= i < |e.items| ==> Readable(e.header, e.items, i)
    requires Refs(d.items) == Refs(e.items) && Durations(d.items) == Durations(e.items) &&
      Marks(d.items) == Marks(e.items)
    requires d.ended == e.ended && d.header.mediaSequence == e.header.mediaSequence
    ensures Parse(true, Print(d)) == Parse(true, Print(e))
  {
    AllFitIff(d.header, d.items);
    AllFitIff(e.header, e.items);
    ParsePrint(d);
    ParsePrint(e);
  }

  // ---- The DISCONTINUITY-SEQUENCE tag

  /** `s` with the mark of segment `n` set, or pending while that segment is still to come. */
  function Ahead(s: State, n: nat): State {
    if n < |s.marks| then s.(marks := s.marks[n := true]) else s.(pendingDiscontinuity := true)
  }

  lemma PushAhead(s: State, n: nat, url: Url, range: Option<Range>)
    requires n <= |s.marks|
    ensures Push(Ahead(s, n), url, range) == Ahead(Push(s, url, range), n)
  {
    var p := s.pendingDiscontinuity;
    if n < |s.marks| {
      assert s.marks[n := true] + [p] == (s.marks + [p])[n := true];
    } else {
      assert s.marks + [true] == (s.marks + [p])[n := true];
    }
  }

  lemma FlushAhead(s: State, n: nat)
    requires n <= |s.marks|
    ensures Flush(Ahead(s, n)) == Ahead(Flush(s), n) && |Flush(s).marks| >= |s.marks|
  {
    if s.lastMediaUri.Some? { PushAhead(s, n, s.lastMediaUri.value, s.pendingRange); }
  }

  lemma PatchAhead(s: State, n: nat, i: nat, r: Range)
    requires n <= |s.marks| && i < |s.segments|
    ensures Patch(Ahead(s, n), i, r) == Ahead(Patch(s, i, r), n)
  {
  }

  lemma PendingAhead(s: State, n: nat, r: Range)
    ensures Ahead(s, n).(pendingRange := Some(r)) == Ahead(s.(pendingRange := Some(r)), n)
  {
  }

  lemma RangeAhead(s: State, n: nat, r: Range)
    requires n <= |s.marks|
    ensures TakeRange(Ahead(s, n), r) == Ahead(TakeRange(s, r), n) && |TakeRange(s, r).marks| >= |s.marks|
  {
    if s.lastBare.Some? && s.lastBare.value < |s.segments| && s.pendingRange.None? {
      PatchAhead(s, n, s.lastBare.value, r);
    } else {
      FlushAhead(s, n);
      PendingAhead(Flush(s), n, r);
    }
  }

  lemma UriAhead(s: State, n: nat, url: Url)
    requires n <= |s.marks|
    ensures TakeUri(Ahead(s, n), url) == Ahead(TakeUri(s, url), n) && |TakeUri(s, url).marks| >= |s.marks|
  {
    if !s.waiting { PushAhead(s, n, url, s.pendingRange); }
  }

  lemma StepAhead(s: State, n: nat, line: Line)
    requires n <= |s.marks|
    ensures Step(Ahead(s, n), line) == Ahead(Step(s, line), n) && |Step(s, line).marks| >= |s.marks|
  {
    match line
    case ByteRange(r) => if r.Some? { RangeAhead(s, n, r.value); }
    case Uri(u) => if u.Some? { UriAhead(s, n, u.value); }
    case EndList => FlushAhead(s, n);
    case ExtInf(_) => FlushAhead(s, n);
    case Discontinuity | DiscontinuitySequence => FlushAhead(s, n);
    case _ =>
  }

  lemma {:induction false} StepsAhead(s: State, n: nat, lines: seq<Line>)
    requires n <= |s.marks|
    ensures Steps(Ahead(s, n), lines) == Ahead(Steps(s, lines), n) && |Steps(s, lines).marks| >= |s.marks|
    decreases |lines|
  {
    if lines != [] {
      StepAhead(s, n, lines[0]);
      StepsAhead(Step(s, lines[0]), n, lines[1..]);
    }
  }

  /** A segment is complete but for its URI, so that the next tag flushes it. */
  predicate OmittedUri(s: State) {
    s.pendingRange.Some? && s.lastMediaUri.Some?
  }

  /** The same playlist with its `n`-th segment, if there is one, behind a discontinuity. */
  function WithMark(p: Playlist, n: nat): Playlist {
    if p.Media? && n < |p.marks| then p.(marks := p.marks[n := true]) else p
  }

  lemma FinishAhead(s: State, n: nat)
    requires n <= |s.marks|
    ensures Finish(Ahead(s, n)) == WithMark(Finish(s), n)
  {
  }

  /**
   Wherever no segment with an omitted URI is open, the tag marks the next segment as
   discontinuous, if one follows, and does nothing else.
   */
  lemma SequenceTagMarks(a: seq<Line>, b: seq<Line>)
    requires !OmittedUri(Steps(START, a))
    ensures Parse(true, a + [DiscontinuitySequence] + b) ==
      WithMark(Parse(true, a + b), |Steps(START, a).segments|)
  {
    var s := Steps(START, a);
    var n := |s.segments|;
    StepsAligned(START, a);
    StepsConcat(START, a, b);
    StepsConcat(START, a + [DiscontinuitySequence], b);
    StepsConcat(START, a, [DiscontinuitySequence]);
    StepsOne(s, DiscontinuitySequence);
    assert Step(s, DiscontinuitySequence) == Ahead(s, n);
    StepsAhead(s, n, b);
    FlushAhead(Steps(s, b), n);
    FinishAhead(Flush(Steps(s, b)), n);
  }

  /**
   A playlist whose head carries the tag parses as without it exactly when it has no segment or its first
   segment is marked discontinuous anyway.
   */
  lemma SequenceTagIff(a: seq<Line>, b: seq<Line>)
    requires !OmittedUri(Steps(START, a)) && Steps(START, a).segments == []
    ensures var p := Parse(true, a + b);
      Parse(true, a + [DiscontinuitySequence] + b) == p <==> p.Media? && p.marks != [] ==> p.marks[0]
  {
    var p := Parse(true, a + b);
    SequenceTagMarks(a, b);
    if p.Media? && p.marks != [] && !p.marks[0] { assert p.marks[0 := true][0]; }
  }

  lemma OneSegment(url: Url)
    ensures Parse(true, [ExtInf(None), Uri(Some(url))]) == Media([Bare(url)], true, [None], [false], None, None)
  {
    var done := Push(START, url, None);
    StepsTwo(START, ExtInf(None), Uri(Some(url)));
    assert Step(START, ExtInf(None)) == START && Step(START, Uri(Some(url))) == done && Flush(done) == done;
    var ds: seq<Option<real>> := [None];
    assert done.segments == [Bare(url)] && done.durations == ds && done.marks == [false];
    assert ds[..0] == [] && Positives(ds[..0]) == 0.0 && Positives(ds) == 0.0;
    assert Finish(done) == Media([Bare(url)], true, ds, [false], None, None);
  }

  lemma MarkOne(segments: seq<SegmentRef>, durations: seq<Option<real>>)
    ensures WithMark(Media(segments, true, durations, [false], None, None), 0) ==
      Media(segments, true, durations, [true], None, None)
  {
    assert [false][0 := true] == [true];
  }

  /** The smallest playlist it is wrong about: one segment, marked discontinuous for no reason. */
  lemma SequenceTagMisread(url: Url)
    ensures Parse(true, [ExtInf(None), Uri(Some(url))]) == Media([Bare(url)], true, [None], [false], None, None)
    ensures Parse(true, [DiscontinuitySequence, ExtInf(None), Uri(Some(url))]) ==
      Media([Bare(url)], true, [None], [true], None, None)
  {
    var b := [ExtInf(None), Uri(Some(url))];
    OneSegment(url);
    SequenceTagMarks([], b);
    assert [] + [DiscontinuitySequence] + b == [DiscontinuitySequence] + b;
    assert [DiscontinuitySequence] + b == [DiscontinuitySequence, ExtInf(None), Uri(Some(url))] && [] + b == b;
    MarkOne([Bare(url)], [None]);
  }

  // ---- The variant list of a master playlist

  predicate Lists(variants: seq<Variant>, url: Url) {
    exists i :: 0 <= i < |variants| && variants[i].url == url
  }

  ghost predicate DistinctUrls(variants: seq<Variant>) {
    forall i, j :: 0 <= i < j < |variants| ==> variants[i].url != variants[j].url
  }

  /** `u` lists the first variant of some URL, as its `k`-th entry. */
  ghost predicate FirstOfUrl(variants: seq<Variant>, u: Variant, k: nat) {
    exists i :: 0 <= i < |variants| && u == Listed(variants[i], k) && !Lists(variants[..i], variants[i].url)
  }

  lemma {:induction false} UniqueUrls(variants: seq<Variant>, url: Url)
    ensures Lists(Unique(variants), url) <==> Lists(variants, url)
  {
    if variants != [] {
      var n := |variants| - 1;
      var front := Unique(variants[..n]);
      UniqueUrls(variants[..n], url);
      if Lists(variants[..n], url) {
        var i :| 0 <= i < n && variants[..n][i].url == url;
        assert variants[i].url == url;
        var j :| 0 <= j < |front| && front[j].url == url;
        assert Unique(variants)[j] == front[j];
      }
      if variants[n].url == url {
        assert Lists(variants, url);
        if !Lists(front, url) { assert Unique(variants)[|front|].url == url; }
      }
    }
  }

  lemma {:induction false} UniqueDistinct(variants: seq<Variant>)
    ensures DistinctUrls(Unique(variants))
  {
    if variants != [] { UniqueDistinct(variants[..|variants| - 1]); }
  }

  /** Each listed variant is the first one with its URL. */
  lemma {:induction false} UniqueFirst(variants: seq<Variant>, k: nat)
    requires k < |Unique(variants)|
    ensures FirstOfUrl(variants, Unique(variants)[k], k)
  {
    var n := |variants| - 1;
    var front := Unique(variants[..n]);
    if k < |front| {
      UniqueFirst(variants[..n], k);
      var i :| 0 <= i < n && front[k] == Listed(variants[..n][i], k) &&
        !Lists(variants[..n][..i], variants[..n][i].url);
      assert variants[..n][..i] == variants[..i];
    } else {
      UniqueUrls(variants[..n], variants[n].url);
      assert Unique(variants)[k] == Listed(variants[n], k);
    }
  }
}
