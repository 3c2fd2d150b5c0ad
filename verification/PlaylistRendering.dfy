/** Writing a playlist and reading it back. */
module PlaylistRendering {
  import opened Options
  import opened References
  import opened Playlists

  // ----- What reading and merging keep

  function Previous(first: nat, segments: seq<Segment>, i: nat): nat
    requires i <= |segments|
  {
    if i == 0 then first else segments[i - 1].discontinuity
  }

  predicate StepAt(first: nat, segments: seq<Segment>, i: nat)
    requires i < |segments|
  {
    Previous(first, segments, i) <= segments[i].discontinuity <= Previous(first, segments, i) + 1
  }

  /** Discontinuity numbers never fall and rise by at most one. */
  predicate Stepwise(first: nat, segments: seq<Segment>) {
    forall i :: 0 <= i < |segments| ==> StepAt(first, segments, i)
  }

  /** Durations are positive, numbers fit, references are lower-case hexadecimal. */
  predicate WellMade(segments: seq<Segment>) {
    forall i :: 0 <= i < |segments| ==>
      segments[i].duration > 0 && segments[i].discontinuity < WordSize && IsLowerReference(segments[i].reference)
  }

  predicate Covers(target: nat, segments: seq<Segment>) {
    target >= 1 && forall i :: 0 <= i < |segments| ==> Rounded(segments[i].duration) <= target
  }

  predicate Sound(p: Playlist) {
    && p.segments != []
    && p.sequence < WordSize && p.discontinuity < WordSize && p.target < WordSize
    && Stepwise(p.discontinuity, p.segments)
    && WellMade(p.segments)
    && Covers(p.target, p.segments)
  }

  // ----- Writing

  /** Where playback is told to start: at the beginning, or at a live position. */
  datatype Start = Beginning | Live(position: nat)

  function Query(start: Start, startup: bool): (query: string)
    ensures IsQuery(query)
  {
    if start.Live? then "?start=live" else if startup then "?start=beginning&startup=1" else "?start=beginning"
  }

  /** Only the first playable segment carries the startup mark. */
  predicate StartsUp(start: Start, segments: seq<Segment>, i: nat)
    requires i < |segments|
  {
    start.Beginning? && !segments[i].gap && forall j :: 0 <= j < i ==> segments[j].gap
  }

  function SegmentLines(base: string, query: string, previous: nat, s: Segment): seq<Line> {
    (if s.discontinuity > previous then [Discontinuity] else []) + [ExtInf(Some(s.duration))] +
    (if s.gap then [Gap] else []) + [Uri(RenderedUri(base, s.reference, query))]
  }

  function Body(base: string, start: Start, previous: nat, segments: seq<Segment>): seq<Line> {
    if segments == [] then []
    else
      var n := |segments| - 1;
      Body(base, start, previous, segments[..n]) +
      SegmentLines(base, Query(start, StartsUp(start, segments, n)), Previous(previous, segments, n), segments[n])
  }

  function Preamble(start: Start, p: Playlist): seq<Line>
    requires p.sequence < WordSize && p.discontinuity < WordSize && p.target < WordSize
  {
    [Header, Version(if exists i :: 0 <= i < |p.segments| && p.segments[i].gap then 8 else 3),
     TargetDuration(Some(Max(p.target, 1))), PlaylistType(p.finalized), MediaSequence(Some(p.sequence))] +
    (if p.discontinuity != 0 then [DiscontinuitySequence(Some(p.discontinuity))] else []) +
    [if start.Live? then StartOffset(start.position, false) else StartOffset(0, true)]
  }

  function Render(base: string, start: Start, p: Playlist): seq<Line>
    requires p.sequence < WordSize && p.discontinuity < WordSize && p.target < WordSize
  {
    Preamble(start, p) + Body(base, start, p.discontinuity, p.segments) + if p.finalized then [EndList] else []
  }

  method RenderLines(base: string, start: Start, p: Playlist) returns (output: seq<Line>)
    requires p.sequence < WordSize && p.discontinuity < WordSize && p.target < WordSize
    ensures output == Render(base, start, p)
  {
    hide Body, Preamble;
    var preamble := RenderPreamble(start, p);
    var body := RenderBody(base, start, p.discontinuity, p.segments);
    output := preamble + body;
    if p.finalized {
      output := output + [EndList];
    }
  }

  method RenderPreamble(start: Start, p: Playlist) returns (output: seq<Line>)
    requires p.sequence < WordSize && p.discontinuity < WordSize && p.target < WordSize
    ensures output == Preamble(start, p)
  {
    var anyGap := exists i :: 0 <= i < |p.segments| && p.segments[i].gap;
    output := [Header, Version(if anyGap then 8 else 3)] +
              [TargetDuration(Some(Max(p.target, 1))), PlaylistType(p.finalized), MediaSequence(Some(p.sequence))];
    if p.discontinuity != 0 {
      output := output + [DiscontinuitySequence(Some(p.discontinuity))];
    }
    match start
    case Beginning => output := output + [StartOffset(0, true)];
    case Live(position) => output := output + [StartOffset(position, false)];
  }

  method RenderBody(base: string, start: Start, first: nat, segments: seq<Segment>) returns (output: seq<Line>)
    ensures output == Body(base, start, first, segments)
  {
    hide SegmentLines, Query;
    output := [];
    var discontinuity := first;
    var beginningStartup := start.Beginning?;
    for i := 0 to |segments|
      invariant discontinuity == Previous(first, segments, i)
      invariant beginningStartup <==> start.Beginning? && forall j :: 0 <= j < i ==> segments[j].gap
      invariant output == Body(base, start, first, segments[..i])
    {
      assert segments[..i + 1][..i] == segments[..i];
      var startup := beginningStartup && !segments[i].gap;
      assert startup == StartsUp(start, segments[..i + 1], i);
      beginningStartup := beginningStartup && !startup;
      var lines := RenderSegment(base, Query(start, startup), discontinuity, segments[i]);
      output := output + lines;
      discontinuity := segments[i].discontinuity;
    }
    assert segments[..|segments|] == segments;
  }

  method RenderSegment(base: string, query: string, previous: nat, s: Segment) returns (lines: seq<Line>)
    ensures lines == SegmentLines(base, query, previous, s)
  {
    lines := [];
    if s.discontinuity > previous {
      lines := lines + [Discontinuity];
    }
    lines := lines + [ExtInf(Some(s.duration))];
    if s.gap {
      lines := lines + [Gap];
    }
    lines := lines + [Uri(RenderedUri(base, s.reference, query))];
  }

  // ----- Reading back what was written

  /** What the lines before the URI leave behind, if they are read at all. */
  lemma {:induction false} BeforeUri(r: Reading, previous: nat, s: Segment)
    requires r.duration.None? && !r.gap && !r.broken && r.discontinuity == previous
    requires previous <= s.discontinuity <= previous + 1 && s.discontinuity < WordSize && s.duration > 0
    ensures ReadLines(r, (if s.discontinuity > previous then [Discontinuity] else []) + [ExtInf(Some(s.duration))] +
                         (if s.gap then [Gap] else [])) ==
            Some(Reading(r.segments, Some(s.duration), s.gap, s.discontinuity > previous, s.discontinuity))
  {
    var a := if s.discontinuity > previous then [Discontinuity] else [];
    var b := [ExtInf(Some(s.duration))];
    var c := if s.gap then [Gap] else [];
    ReadLinesSplit(r, a + b, c);
    ReadLinesSplit(r, a, b);
  }

  /** A written segment is read back if the base names well, and refused otherwise. */
  lemma {:induction false} SegmentReads(base: string, query: string, r: Reading, previous: nat, s: Segment)
    requires IsBase(base) && IsQuery(query) && IsLowerReference(s.reference)
    requires r.duration.None? && !r.gap && !r.broken && r.discontinuity == previous
    requires previous <= s.discontinuity <= previous + 1 && s.discontinuity < WordSize && s.duration > 0
    ensures ReadLines(r, SegmentLines(base, query, previous, s)) ==
            if NamesWell(base) then Some(Reading(r.segments + [s], None, false, false, s.discontinuity)) else None
  {
    hide NamesWell, RenderedUri, SwarmReference, IsBase, IsQuery, IsHexReference, Lower;
    var front := (if s.discontinuity > previous then [Discontinuity] else []) + [ExtInf(Some(s.duration))] +
                 (if s.gap then [Gap] else []);
    var uri := Uri(RenderedUri(base, s.reference, query));
    BeforeUri(r, previous, s);
    ReadLinesSplit(r, front, [uri]);
    ReadOne(ReadLines(r, front).value, uri);
    RenderedUriNames(base, s.reference, query);
  }

  lemma {:induction false} BodyReads(base: string, start: Start, first: nat, segments: seq<Segment>)
    requires IsBase(base) && Stepwise(first, segments) && WellMade(segments)
    ensures ReadLines(Unread(first), Body(base, start, first, segments)) ==
            if segments == [] || NamesWell(base)
            then Some(Reading(segments, None, false, false, Previous(first, segments, |segments|))) else None
    decreases |segments|
  {
    hide SegmentLines, ReadLine, NamesWell, IsBase, IsLowerReference, Query, StartsUp;
    if segments != [] {
      var n := |segments| - 1;
      var init := segments[..n];
      assert Stepwise(first, init) by {
        forall i | 0 <= i < n ensures StepAt(first, init, i) {
          assert StepAt(first, segments, i);
        }
      }
      BodyReads(base, start, first, init);
      var query := Query(start, StartsUp(start, segments, n));
      ReadLinesSplit(Unread(first), Body(base, start, first, init),
                     SegmentLines(base, query, Previous(first, segments, n), segments[n]));
      assert StepAt(first, segments, n);
      if init == [] || NamesWell(base) {
        SegmentReads(base, query, ReadLines(Unread(first), Body(base, start, first, init)).value,
                     Previous(first, segments, n), segments[n]);
      }
      assert init + [segments[n]] == segments;
    }
  }

  ghost predicate NoSegments(lines: seq<Line>) {
    forall i :: 0 <= i < |lines| ==> !(lines[i].ExtInf? || lines[i].Gap? || lines[i].Discontinuity? || lines[i].Uri?)
  }

  lemma {:induction false} NothingRead(r: Reading, lines: seq<Line>)
    requires NoSegments(lines)
    ensures ReadLines(r, lines) == Some(r)
    decreases |lines|
  {
    if lines != [] {
      NothingRead(r, lines[1..]);
    }
  }

  lemma {:induction false} SegmentsRoundTrip(base: string, start: Start, p: Playlist)
    requires IsBase(base) && Sound(p)
    ensures ParseSegments(Render(base, start, p), p.discontinuity) == if NamesWell(base) then Some(p.segments) else None
  {
    hide Body, ReadLine, NamesWell, IsBase;
    var r := Unread(p.discontinuity);
    var last := if p.finalized then [EndList] else [];
    var body := Body(base, start, p.discontinuity, p.segments);
    ReadLinesSplit(r, Preamble(start, p) + body, last);
    ReadLinesSplit(r, Preamble(start, p), body);
    NothingRead(r, Preamble(start, p));
    BodyReads(base, start, p.discontinuity, p.segments);
    if NamesWell(base) {
      NothingRead(ReadLines(r, body).value, last);
    }
  }

  ghost predicate Untagged(lines: seq<Line>) {
    forall i :: 0 <= i < |lines| ==> !(lines[i].MediaSequence? || lines[i].DiscontinuitySequence? || lines[i].TargetDuration?)
  }

  lemma {:induction false} ReadTagsSplit(t: Tags, a: seq<Line>, b: seq<Line>)
    ensures ReadTags(t, a + b) == if ReadTags(t, a).None? then None else ReadTags(ReadTags(t, a).value, b)
    decreases |a|
  {
    if a == [] {
      assert a + b == b;
    } else {
      assert (a + b)[1..] == a[1..] + b;
      if ReadTag(t, a[0]).Some? {
        ReadTagsSplit(ReadTag(t, a[0]).value, a[1..], b);
      }
    }
  }

  lemma {:induction false} NoTagRead(t: Tags, lines: seq<Line>)
    requires Untagged(lines)
    ensures ReadTags(t, lines) == Some(t)
    decreases |lines|
  {
    if lines != [] {
      NoTagRead(t, lines[1..]);
    }
  }

  lemma {:induction false} BodyUntagged(base: string, start: Start, first: nat, segments: seq<Segment>)
    ensures Untagged(Body(base, start, first, segments))
    decreases |segments|
  {
    hide RenderedUri, Query, StartsUp;
    if segments != [] {
      BodyUntagged(base, start, first, segments[..|segments| - 1]);
    }
  }

  lemma {:induction false} PreambleTags(start: Start, p: Playlist)
    requires Sound(p)
    ensures ReadTags(Tags(None, None, None), Preamble(start, p)) ==
            Some(Tags(Some(p.sequence), if p.discontinuity == 0 then None else Some(p.discontinuity), Some(p.target)))
  {
    hide ReadTags;
    var a := [Header, Version(if exists i :: 0 <= i < |p.segments| && p.segments[i].gap then 8 else 3)];
    var b := [TargetDuration(Some(Max(p.target, 1)))];
    var c, e := [PlaylistType(p.finalized)], [MediaSequence(Some(p.sequence))];
    var d := if p.discontinuity != 0 then [DiscontinuitySequence(Some(p.discontinuity))] else [];
    var g := [if start.Live? then StartOffset(start.position, false) else StartOffset(0, true)];
    var none := Tags(None, None, None);
    assert Preamble(start, p) == a + b + c + e + d + g;
    ReadTagsSplit(none, a + b + c + e + d, g);
    ReadTagsSplit(none, a + b + c + e, d);
    ReadTagsSplit(none, a + b + c, e);
    ReadTagsSplit(none, a + b, c);
    ReadTagsSplit(none, a, b);
    NoTagRead(none, a);
    ReadTagOne(none, b[0]);
    var t := ReadTag(none, b[0]).value;
    ReadTagOne(t, c[0]);
    ReadTagOne(t, e[0]);
    t := ReadTag(t, e[0]).value;
    if p.discontinuity == 0 {
      NoTagRead(t, d);
    } else {
      ReadTagOne(t, d[0]);
      t := ReadTag(t, d[0]).value;
    }
    ReadTagOne(t, g[0]);
  }

  lemma {:induction false} ReadTagOne(t: Tags, line: Line)
    ensures ReadTags(t, [line]) == ReadTag(t, line)
  {
    hide ReadTag;
  }

  lemma {:induction false} TagsRoundTrip(base: string, start: Start, p: Playlist)
    requires Sound(p)
    ensures ReadTags(Tags(None, None, None), Render(base, start, p)) ==
            Some(Tags(Some(p.sequence), if p.discontinuity == 0 then None else Some(p.discontinuity), Some(p.target)))
  {
    hide Body, ReadTag, ReadTags, Sound, Preamble;
    assert p.sequence < WordSize && p.discontinuity < WordSize && p.target < WordSize by { SoundWords(p); }
    var rest := Body(base, start, p.discontinuity, p.segments) + if p.finalized then [EndList] else [];
    BodyUntagged(base, start, p.discontinuity, p.segments);
    assert Render(base, start, p) == Preamble(start, p) + rest;
    ReadTagsSplit(Tags(None, None, None), Preamble(start, p), rest);
    PreambleTags(start, p);
    NoTagRead(ReadTags(Tags(None, None, None), Preamble(start, p)).value, rest);
  }

  lemma {:induction false} SoundWords(p: Playlist)
    requires Sound(p)
    ensures p.sequence < WordSize && p.discontinuity < WordSize && p.target < WordSize
  {}

  lemma {:induction false} MeasuredCovered(target: nat, segments: seq<Segment>)
    ensures Covers(target, segments) <==> Measured(segments) <= target
    decreases |segments|
  {
    hide Rounded;
    if segments != [] {
      MeasuredCovered(target, segments[..|segments| - 1]);
    }
  }

  lemma {:induction false} EndRoundTrip(base: string, start: Start, p: Playlist)
    requires Sound(p)
    ensures HasEndList(Render(base, start, p)) == p.finalized
    ensures FirstMeaningful(Render(base, start, p)) == Some(Header)
  {
    hide RenderedUri, Query, StartsUp;
    if !p.finalized {
      var n := |p.segments| - 1;
      var query := Query(start, StartsUp(start, p.segments, n));
      assert Render(base, start, p)[|Render(base, start, p)| - 1] ==
             Uri(RenderedUri(base, p.segments[n].reference, query));
    }
  }

  /** Reading a written playlist gives it back if the base names well, and is
      refused otherwise. */
  lemma {:induction false} RoundTrip(base: string, start: Start, p: Playlist)
    requires IsBase(base) && Sound(p)
    ensures Parse(Render(base, start, p)) == if NamesWell(base) then Some(p) else None
  {
    hide Render, HasEndList, FirstMeaningful, Measured, ReadTags, ParseSegments, NamesWell, IsBase;
    SegmentsRoundTrip(base, start, p);
    TagsRoundTrip(base, start, p);
    EndRoundTrip(base, start, p);
    MeasuredCovered(p.target, p.segments);
  }

  // ----- Every playlist that reading and merging reach is sound

  ghost predicate ReadSound(first: nat, r: Reading) {
    && Stepwise(first, r.segments)
    && WellMade(r.segments)
    && (r.duration.Some? ==> r.duration.value > 0)
    && r.discontinuity < WordSize
    && r.discontinuity == Previous(first, r.segments, |r.segments|) + if r.broken then 1 else 0
  }

  lemma {:induction false} ReadLineSound(first: nat, r: Reading, line: Line)
    requires ReadSound(first, r) && ReadLine(r, line).Some?
    ensures ReadSound(first, ReadLine(r, line).value)
  {
    hide SwarmReference, IsHexReference, Lower, IsLowerReference;
    var next := ReadLine(r, line).value;
    if line.Uri? && r.duration.Some? {
      LowerIsLower(SwarmReference(line.text).value);
      forall i | 0 <= i < |next.segments| ensures StepAt(first, next.segments, i) {
        if i < |r.segments| {
          assert StepAt(first, r.segments, i);
        }
      }
    }
  }

  lemma {:induction false} ReadLinesSound(first: nat, r: Reading, lines: seq<Line>)
    requires ReadSound(first, r) && ReadLines(r, lines).Some?
    ensures ReadSound(first, ReadLines(r, lines).value)
    decreases |lines|
  {
    hide ReadSound, ReadLine;
    if lines != [] {
      ReadLineSound(first, r, lines[0]);
      ReadLinesSound(first, ReadLine(r, lines[0]).value, lines[1..]);
    }
  }

  lemma {:induction false} TagsBounded(t: Tags, lines: seq<Line>)
    requires ReadTags(t, lines).Some?
    requires TagsFit(t)
    ensures TagsFit(ReadTags(t, lines).value)
    decreases |lines|
  {
    if lines != [] {
      TagsBounded(ReadTag(t, lines[0]).value, lines[1..]);
    }
  }

  ghost predicate TagsFit(t: Tags) {
    && (t.sequence.Some? ==> t.sequence.value < WordSize)
    && (t.discontinuity.Some? ==> t.discontinuity.value < WordSize)
    && (t.target.Some? ==> t.target.value < WordSize)
  }

  lemma {:induction false} MeasuredFits(segments: seq<Segment>)
    ensures Measured(segments) < WordSize
    decreases |segments|
  {
    if segments != [] {
      MeasuredFits(segments[..|segments| - 1]);
    }
  }

  lemma {:induction false} ParseSound(lines: seq<Line>)
    requires Parse(lines).Some?
    ensures Sound(Parse(lines).value)
  {
    hide ReadLines, ReadTags, Measured, Covers, Stepwise, WellMade;
    var p := Parse(lines).value;
    TagsBounded(Tags(None, None, None), lines);
    assert ReadSound(p.discontinuity, Unread(p.discontinuity)) by { UnreadSound(p.discontinuity); }
    ReadLinesSound(p.discontinuity, Unread(p.discontinuity), lines);
    MeasuredFits(p.segments);
    MeasuredCovered(p.target, p.segments);
  }

  lemma {:induction false} UnreadSound(first: nat)
    requires first < WordSize
    ensures ReadSound(first, Unread(first))
  {}

  /** A playlist survives writing and reading if and only if it is sound and the
      base names well. */
  lemma {:induction false} RoundTripIffSound(base: string, start: Start, p: Playlist)
    requires IsBase(base) && p.sequence < WordSize && p.discontinuity < WordSize && p.target < WordSize
    ensures Parse(Render(base, start, p)) == Some(p) <==> Sound(p) && NamesWell(base)
  {
    hide Parse, Render, Sound, NamesWell, IsBase;
    if Sound(p) {
      RoundTrip(base, start, p);
    }
    if Parse(Render(base, start, p)) == Some(p) {
      ParseSound(Render(base, start, p));
    }
  }

  /** Appending a run of segments that continues the last number. */
  lemma {:induction false} StepwiseAppend(first: nat, a: seq<Segment>, b: seq<Segment>)
    requires Stepwise(first, a) && a != [] && Stepwise(a[|a| - 1].discontinuity, b)
    ensures Stepwise(first, a + b)
  {
    forall i | 0 <= i < |a + b| ensures StepAt(first, a + b, i) {
      if i < |a| {
        assert StepAt(first, a, i);
      } else {
        assert StepAt(a[|a| - 1].discontinuity, b, i - |a|);
      }
    }
  }

  lemma {:induction false} StepwiseDrop(first: nat, s: seq<Segment>, k: nat)
    requires Stepwise(first, s) && k <= |s|
    ensures Stepwise(Previous(first, s, k), s[k..])
  {
    forall i | 0 <= i < |s| - k ensures StepAt(Previous(first, s, k), s[k..], i) {
      assert StepAt(first, s, k + i);
    }
  }

  lemma {:induction false} MergedSound(p: Playlist, q: Playlist)
    requires Sound(p) && Sound(q) && Joins(p, q)
    ensures Sound(Merged(p, q))
  {
    hide Stepwise, Rounded;
    if q.sequence >= p.sequence && End(q) > End(p) {
      var k := End(p) - q.sequence;
      var last := p.segments[|p.segments| - 1].discontinuity;
      StepwiseDrop(q.discontinuity, q.segments, k);
      StepwiseRebase(Previous(q.discontinuity, q.segments, k), last, q.segments[k..]);
      StepwiseAppend(p.discontinuity, p.segments, q.segments[k..]);
    } else if q.sequence >= p.sequence {
      assert Merged(p, q).segments == p.segments;
    }
  }

  lemma {:induction false} StepwiseRebase(first: nat, other: nat, s: seq<Segment>)
    requires Stepwise(first, s) && s != [] && other <= s[0].discontinuity <= other + 1
    ensures Stepwise(other, s)
  {
    forall i | 0 <= i < |s| ensures StepAt(other, s, i) {
      assert StepAt(first, s, i);
    }
  }

  lemma {:induction false} StepwiseShifted(first: nat, s: seq<Segment>, offset: nat)
    requires Stepwise(first, s)
    ensures Stepwise(first + offset, Shifted(s, offset))
  {
    var t, base := Shifted(s, offset), first + offset;
    forall i | 0 <= i < |t| ensures StepAt(base, t, i) {
      assert StepAt(first, s, i);
    }
  }

  lemma {:induction false} TailMergedSound(p: Playlist, c: seq<Segment>, finalized: bool)
    requires Sound(p) && Stepwise(0, c) && WellMade(c)
    requires TailMerged(p, c, finalized).Some?
    ensures Sound(TailMerged(p, c, finalized).value)
  {
    hide Stepwise, Rounded, Measured, LastMatch, Covers;
    var last := p.segments[|p.segments| - 1];
    var o := LastMatch(c, last).value;
    var offset := last.discontinuity - c[o].discontinuity;
    var shifted := Shifted(c[o..], offset);
    StepwiseDrop(0, c, o);
    StepwiseShifted(Previous(0, c, o), c[o..], offset);
    StepwiseDrop(Previous(0, c, o) + offset, shifted, 1);
    StepwiseAppend(p.discontinuity, p.segments, shifted[1..]);
    var t := TailMerged(p, c, finalized).value;
    if |shifted| > 1 {
      MeasuredFits(shifted[1..]);
      MeasuredCovered(t.target, shifted[1..]);
      assert Covers(t.target, t.segments) by { CoversBoth(p.target, t.target, p.segments, shifted[1..]); }
    } else {
      assert t.segments == p.segments;
    }
  }

  lemma {:induction false} CoversBoth(low: nat, target: nat, a: seq<Segment>, b: seq<Segment>)
    requires Covers(low, a) && low <= target && Covers(target, b)
    ensures Covers(target, a + b)
  {
    hide Rounded;
  }

  lemma {:induction false} CandidatesSound(lines: seq<Line>)
    requires TailCandidates(lines).Some?
    ensures Stepwise(0, TailCandidates(lines).value) && WellMade(TailCandidates(lines).value)
  {
    hide ReadLines, Stepwise, WellMade;
    UnreadSound(0);
    if ParseSegments(lines, 0).Some? && ParseSegments(lines, 0).value != [] {
      ReadLinesSound(0, Unread(0), lines);
    } else {
      ReadLinesSound(0, Unread(0), lines[1..]);
    }
  }

  // ----- Runs

  /** What can happen to a playlist once read. */
  datatype Edit = Manifest(lines: seq<Line>) | Tail(lines: seq<Line>) | Lost(number: nat, reference: string)

  ghost function Edited(p: Playlist, e: Edit): Playlist {
    match e
    case Manifest(lines) =>
      if Parse(lines).Some? && Joins(p, Parse(lines).value) then Merged(p, Parse(lines).value) else p
    case Tail(lines) => if MergeTail(p, lines).Some? then MergeTail(p, lines).value else p
    case Lost(number, reference) => GapMarked(p, number, reference).0
  }

  ghost function EditedBy(p: Playlist, edits: seq<Edit>): Playlist {
    if edits == [] then p else Edited(EditedBy(p, edits[..|edits| - 1]), edits[|edits| - 1])
  }

  lemma {:induction false} EditSound(p: Playlist, e: Edit)
    requires Sound(p)
    ensures Sound(Edited(p, e))
  {
    hide Parse, TailMerged, TailCandidates, Stepwise, Rounded;
    match e
    case Manifest(lines) =>
      if Parse(lines).Some? && Joins(p, Parse(lines).value) {
        ParseSound(lines);
        MergedSound(p, Parse(lines).value);
      }
    case Tail(lines) =>
      if MergeTail(p, lines).Some? {
        CandidatesSound(lines);
        TailMergedSound(p, TailCandidates(lines).value, HasEndList(lines));
      }
    case Lost(number, reference) =>
      var q := GapMarked(p, number, reference).0;
      assert Stepwise(q.discontinuity, q.segments) by { StepwiseSame(p.discontinuity, p.segments, q.segments); }
  }

  lemma {:induction false} StepwiseSame(first: nat, a: seq<Segment>, b: seq<Segment>)
    requires Stepwise(first, a) && |a| == |b|
    requires forall i :: 0 <= i < |a| ==> a[i].discontinuity == b[i].discontinuity
    ensures Stepwise(first, b)
  {
    forall i | 0 <= i < |b| ensures StepAt(first, b, i) {
      assert StepAt(first, a, i);
    }
  }

  /** Whatever manifests, tails and losses follow the first manifest, the playlist
      stays sound; so reading its rendering gives it back if and only if the base
      has no scheme or a web scheme. */
  lemma {:induction false} RunRoundTrips(base: string, start: Start, lines: seq<Line>, edits: seq<Edit>)
    requires IsBase(base) && Parse(lines).Some?
    ensures Sound(EditedBy(Parse(lines).value, edits))
    ensures Parse(Render(base, start, EditedBy(Parse(lines).value, edits))) == Some(EditedBy(Parse(lines).value, edits))
            <==> NamesWell(base)
    decreases |edits|
  {
    hide Parse, Render, Edited, Sound, NamesWell, IsBase;
    if edits == [] {
      ParseSound(lines);
    } else {
      RunRoundTrips(base, start, lines, edits[..|edits| - 1]);
      EditSound(EditedBy(Parse(lines).value, edits[..|edits| - 1]), edits[|edits| - 1]);
    }
    RoundTrip(base, start, EditedBy(Parse(lines).value, edits));
  }
}
