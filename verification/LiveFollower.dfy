/** Following a live feed: each feed update carries a window of the publisher's
    stream, and the held playlist grows by those windows or jumps to a new one. */
module LiveFollower {
  import opened Options
  import opened Playlists
  import opened PlaylistTails

  datatype Live = Live(playlist: Playlist, index: nat, skipped: nat)

  /** What fetching one feed update can bring: its whole text, a tail cut of it
      and perhaps its whole text, or the newest update the frontier search found. */
  datatype Event =
    | Inline(index: nat, lines: seq<Line>)
    | Deferred(index: nat, tail: Option<seq<Line>>, whole: Option<seq<Line>>)
    | Frontier(index: nat, lines: seq<Line>)

  // ----- Steps

  ghost function ApplyManifest(s: Live, index: nat, lines: seq<Line>): Option<Live> {
    var q := Parse(lines);
    if q.Some? && Joins(s.playlist, q.value)
    then Some(s.(playlist := Merged(s.playlist, q.value), index := Max(s.index, index)))
    else None
  }

  ghost function ApplyTail(s: Live, index: nat, lines: seq<Line>): Option<Live> {
    var p := MergeTail(s.playlist, lines);
    if p.Some? then Some(s.(playlist := p.value, index := Max(s.index, index))) else None
  }

  ghost function ApplyDeferred(s: Live, index: nat, tail: Option<seq<Line>>, whole: Option<seq<Line>>): Option<Live> {
    if tail.Some? && ApplyTail(s, index, tail.value).Some? then ApplyTail(s, index, tail.value)
    else if whole.Some? then ApplyManifest(s, index, whole.value)
    else None
  }

  ghost function Recovered(s: Live, index: nat, lines: seq<Line>): Option<Live> {
    var q := Parse(lines);
    if index < s.index || q.None? then None
    else if index == s.index then
      if q.value.finalized && !s.playlist.finalized then Some(s.(playlist := s.playlist.(finalized := true))) else None
    else if Joins(s.playlist, q.value) then ApplyManifest(s, index, lines)
    else Some(Live(q.value, index, SaturatingAdd(s.skipped, SaturatingSub(q.value.sequence, SaturatingAdd(s.playlist.sequence, |s.playlist.segments|)))))
  }

  ghost function Outcome(s: Live, e: Event): Option<Live> {
    match e
    case Inline(index, lines) => ApplyManifest(s, index, lines)
    case Deferred(index, tail, whole) => ApplyDeferred(s, index, tail, whole)
    case Frontier(index, lines) => Recovered(s, index, lines)
  }

  ghost function Step(s: Live, e: Event): Live {
    if Outcome(s, e).Some? then Outcome(s, e).value else s
  }

  ghost function Run(s: Live, events: seq<Event>): Live {
    if events == [] then s else Step(Run(s, events[..|events| - 1]), events[|events| - 1])
  }

  /** Updates are probed beyond the applied index; the frontier may be anywhere. */
  predicate Ahead(s: Live, e: Event) {
    e.Frontier? || e.index > s.index
  }

  ghost predicate AlwaysAhead(s: Live, events: seq<Event>) {
    forall k :: 0 <= k < |events| ==> Ahead(Run(s, events[..k]), events[k])
  }

  // ----- The publisher

  /** The stream by sequence number, and the window each feed index shows. */
  datatype Publisher = Publisher(stream: seq<Segment>, windows: seq<(nat, nat)>)

  ghost predicate Orderly(pub: Publisher) {
    && |pub.stream| < WordSize
    && (forall n :: 0 <= n < |pub.stream| ==> pub.stream[n].discontinuity + 1 < WordSize)
    && (forall n {:trigger pub.stream[n]} :: 1 <= n < |pub.stream| ==>
          pub.stream[n - 1].discontinuity <= pub.stream[n].discontinuity <= pub.stream[n - 1].discontinuity + 1)
    && (forall i :: 0 <= i < |pub.windows| ==> pub.windows[i].0 < pub.windows[i].1 <= |pub.stream|)
    && (forall i, j :: 0 <= i < j < |pub.windows| ==>
          pub.windows[i].0 <= pub.windows[j].0 && pub.windows[i].1 <= pub.windows[j].1)
  }

  /** The playlist is a contiguous window of the stream. */
  ghost predicate IsWindow(pub: Publisher, p: Playlist) {
    p.segments != [] && End(p) <= |pub.stream| && p.segments == pub.stream[p.sequence..End(p)]
  }

  /** A text published at a feed index shows that index's window, if it reads at all. */
  ghost predicate PublishedAt(pub: Publisher, index: nat, lines: seq<Line>) {
    Parse(lines).Some? ==>
      && index < |pub.windows|
      && Parse(lines).value.sequence == pub.windows[index].0
      && End(Parse(lines).value) == pub.windows[index].1
      && IsWindow(pub, Parse(lines).value)
  }

  /** A tail is cut from such a text, perhaps through a line. */
  ghost predicate CutAt(pub: Publisher, index: nat, tail: seq<Line>) {
    exists before, line, fragment, after ::
      CutFrom(pub, index, tail, before, line, fragment, after)
  }

  ghost predicate CutFrom(pub: Publisher, index: nat, tail: seq<Line>,
                          before: seq<Line>, line: Line, fragment: Line, after: seq<Line>)
  {
    && tail == [fragment] + after
    && Parse(before + [line] + after).Some?
    && PublishedAt(pub, index, before + [line] + after)
  }

  ghost predicate Honest(pub: Publisher, e: Event) {
    match e
    case Inline(index, lines) => PublishedAt(pub, index, lines)
    case Deferred(index, tail, whole) =>
      && (tail.Some? ==> CutAt(pub, index, tail.value))
      && (whole.Some? ==> PublishedAt(pub, index, whole.value))
    case Frontier(index, lines) => PublishedAt(pub, index, lines)
  }

  // ----- Windows join exactly when they touch

  lemma {:induction false} WindowAt(pub: Publisher, p: Playlist, n: nat)
    requires IsWindow(pub, p) && p.sequence <= n < End(p)
    ensures n < |pub.stream| && p.segments[n - p.sequence] == pub.stream[n]
  {}

  lemma {:induction false} StreamSteps(pub: Publisher, n: nat)
    requires Orderly(pub) && 1 <= n < |pub.stream|
    ensures pub.stream[n - 1].discontinuity <= pub.stream[n].discontinuity <= pub.stream[n - 1].discontinuity + 1 < WordSize
  {}

  lemma {:induction false} WindowsJoin(pub: Publisher, p: Playlist, q: Playlist)
    requires Orderly(pub) && IsWindow(pub, p) && IsWindow(pub, q)
    requires p.sequence <= q.sequence && End(p) <= End(q)
    ensures Joins(p, q) <==> q.sequence <= End(p)
    ensures q.sequence <= End(p) ==> IsWindow(pub, Merged(p, q)) && End(Merged(p, q)) == End(q) && Merged(p, q).sequence == p.sequence
  {
    hide Orderly, IsWindow;
    assert End(q) <= |pub.stream| < WordSize && p.segments != [] by { WindowEnd(pub, p); WindowEnd(pub, q); }
    if q.sequence <= End(p) {
      forall n: nat | Overlaps(p, q, n) ensures p.segments[n - p.sequence] == q.segments[n - q.sequence] {
        WindowAt(pub, p, n);
        WindowAt(pub, q, n);
      }
      if End(p) < End(q) {
        WindowAt(pub, q, End(p));
        WindowAt(pub, p, End(p) - 1);
        StreamSteps(pub, End(p));
      }
      MergedWindow(pub, p, q);
    }
  }

  lemma {:induction false} WindowEnd(pub: Publisher, p: Playlist)
    requires Orderly(pub) && IsWindow(pub, p)
    ensures End(p) <= |pub.stream| < WordSize && p.segments != []
  {}

  lemma {:induction false} MergedWindow(pub: Publisher, p: Playlist, q: Playlist)
    requires IsWindow(pub, p) && IsWindow(pub, q)
    requires p.sequence <= q.sequence <= End(p) <= End(q)
    ensures IsWindow(pub, Merged(p, q)) && End(Merged(p, q)) == End(q) && Merged(p, q).sequence == p.sequence
  {
    assert q.segments[End(p) - q.sequence..] == pub.stream[End(p)..End(q)];
    assert pub.stream[p.sequence..End(p)] + pub.stream[End(p)..End(q)] == pub.stream[p.sequence..End(q)];
  }

  /** What a tail must read as to extend the playlist to the end of its window: behind
      the last segment with the held tail's payload it has as many segments as the
      window has beyond the held end, and the first of them is as many discontinuities
      away as in the stream. */
  ghost predicate TailFits(pub: Publisher, p: Playlist, index: nat, tail: seq<Line>) {
    && index < |pub.windows| && p.segments != []
    && TailCandidates(tail).Some?
    && CutAligned(LastSegment(p), TailCandidates(tail).value, pub.windows[index].1 - End(p), NumberAt(pub.stream, End(p)))
  }

  /** A tail that merges gives a window that ends as its own does if and only if it fits. */
  lemma {:induction false} TailOfWindow(pub: Publisher, p: Playlist, index: nat, tail: seq<Line>)
    requires Orderly(pub) && IsWindow(pub, p) && CutAt(pub, index, tail) && index < |pub.windows|
    requires p.sequence <= pub.windows[index].0 && End(p) <= pub.windows[index].1
    requires MergeTail(p, tail).Some?
    ensures var t := MergeTail(p, tail).value;
            && t.sequence == p.sequence
            && (IsWindow(pub, t) && End(t) == pub.windows[index].1 <==> TailFits(pub, p, index, tail))
  {
    hide Parse, Orderly, Extends, TailMerged, TailCandidates, HasEndList, CutAligned;
    var before, line, fragment, after :| CutFrom(pub, index, tail, before, line, fragment, after);
    var q := Parse(before + [line] + after).value;
    var change := TailAppends(p, before, line, fragment, after);
    if End(p) < End(q) {
      WindowNumber(pub, p, q);
    }
    AlignedReaches(p, TailCandidates(tail).value, HasEndList(tail), pub.windows[index].1, NumberAt(pub.stream, End(p)));
    WindowIff(pub, p, q, MergeTail(p, tail).value, change);
  }

  lemma {:induction false} WindowNumber(pub: Publisher, p: Playlist, q: Playlist)
    requires IsWindow(pub, p) && IsWindow(pub, q) && End(p) < End(q)
    ensures NumberAt(pub.stream, End(p)).Some?
  {}

  lemma {:induction false} WindowIff(pub: Publisher, p: Playlist, q: Playlist, t: Playlist, change: int)
    requires IsWindow(pub, p) && IsWindow(pub, q) && Extends(p, q, t, change)
    requires p.sequence <= q.sequence && End(p) <= End(q)
    ensures t.sequence == p.sequence && |p.segments| <= |t.segments|
    ensures IsWindow(pub, t) && End(t) == End(q) <==>
            (End(t) == End(q)
             && (End(p) < End(q) ==>
                   End(p) < |pub.stream| && t.segments[|p.segments|].discontinuity == pub.stream[End(p)].discontinuity))
  {
    hide IsWindow;
    assert t.sequence == p.sequence && |p.segments| <= |t.segments|;
    if IsWindow(pub, t) && End(t) == End(q) && End(p) < End(t) {
      WindowAt(pub, t, End(p));
    }
    if End(t) == End(q) && (End(p) < End(q) ==>
         End(p) < |pub.stream| && t.segments[|p.segments|].discontinuity == pub.stream[End(p)].discontinuity)
    {
      assert |Appended(p, t)| == End(q) - End(p);
      assert q.sequence <= End(p);
      if End(p) < End(q) {
        WindowAt(pub, q, End(p));
      }
      ExtendsIff(p, q, t, change);
      MergedWindow(pub, p, q);
      SameWindow(pub, Merged(p, q), t);
    }
  }

  lemma {:induction false} NonEmpty(pub: Publisher, p: Playlist)
    requires IsWindow(pub, p)
    ensures p.segments != [] && End(p) > p.sequence
  {}

  lemma {:induction false} SameWindow(pub: Publisher, p: Playlist, q: Playlist)
    requires IsWindow(pub, p) && p.sequence == q.sequence && p.segments == q.segments
    ensures IsWindow(pub, q) && End(p) == End(q)
  {}

  lemma {:induction false} TailShowsHeld(pub: Publisher, p: Playlist, q: Playlist, before: seq<Line>, line: Line, fragment: Line, after: seq<Line>)
    requires Distinct(pub.stream) && IsWindow(pub, p) && IsWindow(pub, q)
    requires p.sequence <= q.sequence && End(p) <= End(q)
    requires Parse(before + [line] + after) == Some(q) && (fragment.ExtInf? ==> fragment == line)
    requires MergeTail(p, [fragment] + after).Some?
    ensures q.sequence < End(p)
  {
    hide ParseSegments, TailCandidates, SuffixOf, ReadTags, Measured, LastMatch, HasEndList, Shifted, Distinct;
    var c := TailCandidates([fragment] + after).value;
    var offset := TailIsSuffix(before, line, fragment, after, q.discontinuity);
    LastMatchInSuffix(c, q.segments, offset, LastSegment(p));
    var k := LastMatch(q.segments, LastSegment(p)).value;
    PayloadPlaces(pub, p, q, k);
  }

  /** Distinct payloads: equal payload, equal sequence number. */
  lemma {:induction false} PayloadPlaces(pub: Publisher, p: Playlist, q: Playlist, k: nat)
    requires Distinct(pub.stream) && IsWindow(pub, p) && IsWindow(pub, q) && k < |q.segments|
    requires p.segments != [] && SamePayload(q.segments[k], LastSegment(p))
    ensures q.sequence + k + 1 == End(p)
  {
    hide IsWindow, Distinct;
    WindowAt(pub, q, q.sequence + k);
    WindowAt(pub, p, End(p) - 1);
    DistinctPlaces(pub.stream, q.sequence + k, End(p) - 1);
  }

  lemma {:induction false} DistinctPlaces(s: seq<Segment>, n: nat, m: nat)
    requires Distinct(s) && n < |s| && m < |s| && SamePayload(s[n], s[m])
    ensures n == m
  {}

  lemma {:induction false} RecognisedInStream(pub: Publisher, p: Playlist, q: Playlist)
    requires Distinct(pub.stream) && IsWindow(pub, p) && IsWindow(pub, q)
    requires p.sequence <= q.sequence < End(p) <= End(q)
    ensures p.segments != [] && TailRecognised(p, q)
  {
    hide LastMatch, Distinct;
    var k := End(p) - 1 - q.sequence;
    assert q.segments[k] == pub.stream[End(p) - 1];
    assert LastSegment(p) == pub.stream[End(p) - 1];
    assert SamePayload(q.segments[k], LastSegment(p));
    PayloadPlaces(pub, p, q, LastMatch(q.segments, LastSegment(p)).value);
  }

  /** With distinct payloads and a fragment that does not pass for another duration,
      every tail that merges fits. */
  lemma {:induction false} DistinctTailFits(pub: Publisher, p: Playlist, index: nat, before: seq<Line>, line: Line, fragment: Line, after: seq<Line>)
    requires Orderly(pub) && Distinct(pub.stream) && IsWindow(pub, p) && index < |pub.windows|
    requires CutFrom(pub, index, [fragment] + after, before, line, fragment, after)
    requires fragment.ExtInf? ==> fragment == line
    requires p.sequence <= pub.windows[index].0 && End(p) <= pub.windows[index].1
    requires MergeTail(p, [fragment] + after).Some?
    ensures TailFits(pub, p, index, [fragment] + after)
  {
    hide Parse, MergeTail, Orderly, IsWindow, Joins, TailRecognised, TailFits, Distinct;
    var tail := [fragment] + after;
    var q := Parse(before + [line] + after).value;
    TailShowsHeld(pub, p, q, before, line, fragment, after);
    WindowsJoin(pub, p, q);
    RecognisedInStream(pub, p, q);
    NonEmpty(pub, p);
    TailMergesAlike(p, before, line, fragment, after);
    SameWindow(pub, Merged(p, q), MergeTail(p, tail).value);
    assert CutAt(pub, index, tail);
    TailOfWindow(pub, p, index, tail);
  }

  // ----- One step

  /** The held playlist is a window that ends where the applied index's window ends. */
  ghost predicate Tracks(pub: Publisher, s: Live) {
    && s.index < |pub.windows|
    && IsWindow(pub, s.playlist)
    && s.playlist.sequence <= pub.windows[s.index].0
    && End(s.playlist) == pub.windows[s.index].1
    && s.skipped <= s.playlist.sequence
  }

  /** Either the playlist grows at its end, or it jumps past its end and the gap
      is counted. */
  ghost predicate Moves(s: Live, t: Live) {
    && End(s.playlist) <= End(t.playlist)
    && s.index <= t.index
    && ( || (t.playlist.sequence == s.playlist.sequence && t.skipped == s.skipped)
         || (t.playlist.sequence > End(s.playlist) && t.skipped == s.skipped + t.playlist.sequence - End(s.playlist)))
  }

  lemma {:induction false} WindowsOrdered(pub: Publisher, i: nat, j: nat)
    requires Orderly(pub) && i <= j < |pub.windows|
    ensures pub.windows[i].0 <= pub.windows[j].0 && pub.windows[i].1 <= pub.windows[j].1
  {}

  /** A later update is applied exactly when its window touches the held playlist. */
  lemma {:induction false} ManifestStep(pub: Publisher, s: Live, index: nat, lines: seq<Line>)
    requires Orderly(pub) && Tracks(pub, s) && PublishedAt(pub, index, lines) && index > s.index
    requires Parse(lines).Some?
    ensures ApplyManifest(s, index, lines).Some? <==> Parse(lines).value.sequence <= End(s.playlist)
    ensures ApplyManifest(s, index, lines).Some? ==>
              Tracks(pub, ApplyManifest(s, index, lines).value) && Moves(s, ApplyManifest(s, index, lines).value)
  {
    hide Parse, Orderly, IsWindow, Joins, Merged;
    WindowsOrdered(pub, s.index, index);
    WindowsJoin(pub, s.playlist, Parse(lines).value);
  }

  /** A tail that the event carries and that merges, fits. */
  ghost predicate Fits(pub: Publisher, s: Live, e: Event) {
    e.Deferred? && e.tail.Some? && MergeTail(s.playlist, e.tail.value).Some? ==>
      TailFits(pub, s.playlist, e.index, e.tail.value)
  }

  ghost predicate AlwaysFits(pub: Publisher, s: Live, events: seq<Event>) {
    forall k :: 0 <= k < |events| ==> Fits(pub, Run(s, events[..k]), events[k])
  }

  lemma {:induction false} TailStep(pub: Publisher, s: Live, index: nat, tail: seq<Line>)
    requires Orderly(pub) && Tracks(pub, s) && CutAt(pub, index, tail) && index > s.index
    requires ApplyTail(s, index, tail).Some? && TailFits(pub, s.playlist, index, tail)
    ensures Tracks(pub, ApplyTail(s, index, tail).value) && Moves(s, ApplyTail(s, index, tail).value)
  {
    hide Parse, Orderly, IsWindow, Joins, Merged, MergeTail;
    assert index < |pub.windows|;
    WindowsOrdered(pub, s.index, index);
    TailOfWindow(pub, s.playlist, index, tail);
  }

  lemma {:induction false} RecoveredStep(pub: Publisher, s: Live, index: nat, lines: seq<Line>)
    requires Orderly(pub) && Tracks(pub, s) && PublishedAt(pub, index, lines) && Recovered(s, index, lines).Some?
    ensures Tracks(pub, Recovered(s, index, lines).value) && Moves(s, Recovered(s, index, lines).value)
  {
    hide Parse, Orderly, IsWindow, Joins, Merged;
    var q := Parse(lines).value;
    if index == s.index {
      SameWindow(pub, s.playlist, s.playlist.(finalized := true));
    } else {
      ManifestStep(pub, s, index, lines);
      if q.sequence > End(s.playlist) {
        WindowEnd(pub, s.playlist);
        WindowEnd(pub, q);
        WindowsOrdered(pub, s.index, index);
      }
    }
  }

  /** The newest update the search finds is always taken in when it is ahead: the
      playlist then ends where its window ends, and starts there only when the windows do
      not touch. At the held index it can only end the stream; behind it, nothing. */
  lemma {:induction false} FrontierRecovers(pub: Publisher, s: Live, index: nat, lines: seq<Line>)
    requires Orderly(pub) && Tracks(pub, s) && PublishedAt(pub, index, lines) && Parse(lines).Some?
    ensures index < s.index ==> Recovered(s, index, lines).None?
    ensures index == s.index ==>
              && (Recovered(s, index, lines).Some? <==> Parse(lines).value.finalized && !s.playlist.finalized)
              && (Recovered(s, index, lines).Some? ==>
                    && Recovered(s, index, lines).value.playlist.finalized
                    && Recovered(s, index, lines).value == s.(playlist := Recovered(s, index, lines).value.playlist)
                    && Recovered(s, index, lines).value.playlist.(finalized := false) == s.playlist)
    ensures index > s.index ==>
              && Recovered(s, index, lines).Some?
              && var t := Recovered(s, index, lines).value;
                 && t.index == index && End(t.playlist) == pub.windows[index].1
                 && t.playlist.finalized == Parse(lines).value.finalized
                 && t.playlist.sequence == if pub.windows[index].0 <= End(s.playlist) then s.playlist.sequence else pub.windows[index].0
  {
    hide Parse, Orderly, IsWindow, Joins;
    if index > s.index {
      WindowsOrdered(pub, s.index, index);
      WindowsJoin(pub, s.playlist, Parse(lines).value);
    }
  }

  lemma {:induction false} StepTracks(pub: Publisher, s: Live, e: Event)
    requires Orderly(pub) && Tracks(pub, s) && Honest(pub, e) && Ahead(s, e) && Fits(pub, s, e)
    ensures Tracks(pub, Step(s, e)) && Moves(s, Step(s, e))
  {
    hide Parse, Orderly, Tracks, IsWindow, ApplyManifest, Recovered, PublishedAt, CutAt, TailFits, MergeTail;
    if Outcome(s, e).Some? {
      match e
      case Inline(index, lines) => AppliedParses(s, index, lines); ManifestStep(pub, s, index, lines);
      case Deferred(index, tail, whole) =>
        if tail.Some? && ApplyTail(s, index, tail.value).Some? {
          TailStep(pub, s, index, tail.value);
        } else {
          AppliedParses(s, index, whole.value);
          ManifestStep(pub, s, index, whole.value);
        }
      case Frontier(index, lines) => RecoveredStep(pub, s, index, lines);
    }
  }

  lemma {:induction false} AppliedParses(s: Live, index: nat, lines: seq<Line>)
    requires ApplyManifest(s, index, lines).Some?
    ensures Parse(lines).Some?
  {
    hide Parse, Joins;
  }

  // ----- Whole runs

  ghost function Range(low: nat, high: nat): (r: set<nat>)
    ensures forall n: nat :: n in r <==> low <= n < high
    ensures low <= high ==> |r| == high - low
    decreases high
  {
    if low < high then Range(low, high - 1) + {high - 1} else {}
  }

  ghost function Span(p: Playlist): set<nat> {
    Range(p.sequence, End(p))
  }

  /** Every sequence number that some held playlist of the run contained. */
  ghost function EverHeld(s: Live, events: seq<Event>): set<nat> {
    if events == [] then Span(s.playlist)
    else EverHeld(s, events[..|events| - 1]) + Span(Run(s, events).playlist)
  }

  ghost function Missed(low: nat, end: nat, held: set<nat>): set<nat> {
    Range(low, end) - held
  }

  /** What is held lies between the join and the end, and covers the playlist. */
  ghost predicate HeldBetween(low: nat, p: Playlist, held: set<nat>) {
    && low <= p.sequence
    && (forall n :: n in held ==> low <= n < End(p))
    && Span(p) <= held
  }

  lemma {:induction false} HeldStep(low: nat, p: Playlist, q: Playlist, held: set<nat>)
    requires HeldBetween(low, p, held) && p.sequence <= q.sequence && End(p) <= End(q)
    ensures HeldBetween(low, q, held + Span(q))
  {
    hide Range;
  }

  lemma {:induction false} MissedGrows(low: nat, p: Playlist, q: Playlist, held: set<nat>)
    requires HeldBetween(low, p, held) && p.sequence == q.sequence && End(p) <= End(q)
    ensures Missed(low, End(q), held + Span(q)) == Missed(low, End(p), held)
  {
    hide Range;
    var before, after := Missed(low, End(p), held), Missed(low, End(q), held + Span(q));
    forall n: nat ensures n in before <==> n in after {
      assert n in Span(p) ==> n in held;
    }
  }

  lemma {:induction false} MissedJumps(low: nat, p: Playlist, q: Playlist, held: set<nat>)
    requires HeldBetween(low, p, held) && End(p) < q.sequence
    ensures |Missed(low, End(q), held + Span(q))| == |Missed(low, End(p), held)| + q.sequence - End(p)
  {
    hide Range;
    var before, after := Missed(low, End(p), held), Missed(low, End(q), held + Span(q));
    var gap := Range(End(p), q.sequence);
    forall n: nat ensures n in after <==> n in before || n in gap {
      assert n in held ==> n < End(p);
    }
    assert after == before + gap;
    assert before !! gap;
  }

  lemma {:induction false} MissedStep(low: nat, s: Live, t: Live, held: set<nat>)
    requires HeldBetween(low, s.playlist, held) && Moves(s, t)
    ensures HeldBetween(low, t.playlist, held + Span(t.playlist))
    ensures |Missed(low, End(t.playlist), held + Span(t.playlist))| ==
            |Missed(low, End(s.playlist), held)| + t.skipped - s.skipped
  {
    hide Missed, Range, HeldBetween;
    HeldStep(low, s.playlist, t.playlist, held);
    if t.playlist.sequence == s.playlist.sequence {
      MissedGrows(low, s.playlist, t.playlist, held);
    } else {
      MissedJumps(low, s.playlist, t.playlist, held);
    }
  }

  /** Over every run: the held playlist is a window of the stream that ends with
      the applied update, and `skipped` counts exactly the sequence numbers since
      the join that no held playlist ever contained. */
  lemma {:induction false} RunTracks(pub: Publisher, s: Live, events: seq<Event>)
    requires Orderly(pub) && Tracks(pub, s) && s.skipped == 0
    requires forall k :: 0 <= k < |events| ==> Honest(pub, events[k])
    requires AlwaysAhead(s, events) && AlwaysFits(pub, s, events)
    ensures Tracks(pub, Run(s, events))
    ensures HeldBetween(s.playlist.sequence, Run(s, events).playlist, EverHeld(s, events))
    ensures Run(s, events).skipped == |Missed(s.playlist.sequence, End(Run(s, events).playlist), EverHeld(s, events))|
    decreases |events|
  {
    hide Orderly, Tracks, Step, Honest, Fits;
    if events == [] {
      assert Missed(s.playlist.sequence, End(s.playlist), Span(s.playlist)) == {};
    } else {
      var earlier, e := events[..|events| - 1], events[|events| - 1];
      assert AlwaysAhead(s, earlier) by {
        forall k | 0 <= k < |earlier| ensures Ahead(Run(s, earlier[..k]), earlier[k]) {
          assert earlier[..k] == events[..k];
        }
      }
      assert AlwaysFits(pub, s, earlier) by {
        forall k | 0 <= k < |earlier| ensures Fits(pub, Run(s, earlier[..k]), earlier[k]) {
          assert earlier[..k] == events[..k];
        }
      }
      RunTracks(pub, s, earlier);
      StepTracks(pub, Run(s, earlier), e);
      MissedStep(s.playlist.sequence, Run(s, earlier), Run(s, events), EverHeld(s, earlier));
    }
  }

  /** A tail that merges without fitting ends the tracking at once. */
  lemma {:induction false} UnfitShows(pub: Publisher, s: Live, e: Event)
    requires Orderly(pub) && Tracks(pub, s) && Honest(pub, e) && Ahead(s, e) && !Fits(pub, s, e)
    ensures !Tracks(pub, Step(s, e))
  {
    hide Parse, Orderly, IsWindow, MergeTail, TailFits;
    assert e.index < |pub.windows|;
    WindowsOrdered(pub, s.index, e.index);
    TailOfWindow(pub, s.playlist, e.index, e.tail.value);
  }

  lemma {:induction false} FirstUnfit(pub: Publisher, s: Live, events: seq<Event>, n: nat) returns (k: nat)
    requires n <= |events| && exists j :: 0 <= j < n && !Fits(pub, Run(s, events[..j]), events[j])
    ensures k < n && !Fits(pub, Run(s, events[..k]), events[k])
    ensures forall j :: 0 <= j < k ==> Fits(pub, Run(s, events[..j]), events[j])
    decreases n
  {
    hide Fits, Run;
    if exists j :: 0 <= j < n - 1 && !Fits(pub, Run(s, events[..j]), events[j]) {
      k := FirstUnfit(pub, s, events, n - 1);
    } else {
      k := n - 1;
    }
  }

  lemma {:induction false} PrefixOfRun(pub: Publisher, s: Live, events: seq<Event>, k: nat)
    requires k <= |events| && AlwaysAhead(s, events)
    requires forall j :: 0 <= j < k ==> Fits(pub, Run(s, events[..j]), events[j])
    ensures AlwaysAhead(s, events[..k]) && AlwaysFits(pub, s, events[..k])
  {
    hide Fits, Run;
    assert forall j :: 0 <= j <= k ==> events[..k][..j] == events[..j];
  }

  /** The held playlist is such a window throughout a run if and only if every tail
      that merges in it fits. */
  lemma {:induction false} RunTracksIff(pub: Publisher, s: Live, events: seq<Event>)
    requires Orderly(pub) && Tracks(pub, s) && s.skipped == 0
    requires forall k :: 0 <= k < |events| ==> Honest(pub, events[k])
    requires AlwaysAhead(s, events)
    ensures (forall k :: 0 <= k <= |events| ==> Tracks(pub, Run(s, events[..k]))) <==> AlwaysFits(pub, s, events)
  {
    hide Orderly, Tracks, Step, Honest, Fits, Run;
    if AlwaysFits(pub, s, events) {
      forall k | 0 <= k <= |events| ensures Tracks(pub, Run(s, events[..k])) {
        PrefixOfRun(pub, s, events, k);
        RunTracks(pub, s, events[..k]);
      }
    } else {
      var k := FirstUnfit(pub, s, events, |events|);
      PrefixOfRun(pub, s, events, k);
      RunTracks(pub, s, events[..k]);
      UnfitShows(pub, Run(s, events[..k]), events[k]);
      RunOneMore(s, events, k);
    }
  }

  lemma {:induction false} RunOneMore(s: Live, events: seq<Event>, k: nat)
    requires k < |events|
    ensures Run(s, events[..k + 1]) == Step(Run(s, events[..k]), events[k])
  {
    hide Step;
    assert events[..k + 1][..k] == events[..k];
  }

  /** The end and the start never move back, from any point of a run to its end. */
  lemma {:induction false} RunNeverRetreats(pub: Publisher, s: Live, events: seq<Event>, k: nat)
    requires Orderly(pub) && Tracks(pub, s) && s.skipped == 0
    requires forall k :: 0 <= k < |events| ==> Honest(pub, events[k])
    requires AlwaysAhead(s, events) && AlwaysFits(pub, s, events) && k <= |events|
    ensures End(Run(s, events[..k]).playlist) <= End(Run(s, events).playlist)
    ensures Run(s, events[..k]).playlist.sequence <= Run(s, events).playlist.sequence
    decreases |events|
  {
    hide Orderly, Tracks, Step, Honest, Fits;
    if k == |events| {
      assert events[..k] == events;
    } else {
      var earlier, e := events[..|events| - 1], events[|events| - 1];
      assert forall j :: 0 <= j <= |earlier| ==> earlier[..j] == events[..j];
      assert AlwaysAhead(s, earlier) && AlwaysFits(pub, s, earlier);
      RunNeverRetreats(pub, s, earlier, k);
      RunTracks(pub, s, earlier);
      StepTracks(pub, Run(s, earlier), e);
    }
  }

  // ----- The follower's state

  const FollowAhead := 4

  /** What probing one index brings; nothing when it is missing or unclear. */
  datatype Answer = Whole(lines: seq<Line>) | Large(tail: Option<seq<Line>>, whole: Option<seq<Line>>) | Nothing

  predicate Brings(answer: Answer, index: nat, e: Event) {
    match answer
    case Whole(lines) => e == Inline(index, lines)
    case Large(tail, whole) => e == Deferred(index, tail, whole)
    case Nothing => false
  }

  /** The update at a place of a run is accepted by the state it meets. */
  ghost predicate Accepted(s: Live, events: seq<Event>, k: nat)
    requires k < |events|
  {
    Outcome(Run(s, events[..k]), events[k]).Some?
  }

  function Holes(answers: seq<Answer>): nat {
    if answers == [] then 0
    else Holes(answers[..|answers| - 1]) + if answers[|answers| - 1].Nothing? then 1 else 0
  }

  lemma {:induction false} HolesGrow(answers: seq<Answer>, i: nat, j: nat)
    requires i <= j <= |answers|
    ensures Holes(answers[..i]) <= Holes(answers[..j])
  {
    if i < j {
      HolesGrow(answers, i, j - 1);
      assert answers[..j][..j - 1] == answers[..j - 1];
    }
  }

  /** A pass gets to an answer that brings an update when at most one index before it
      was missing, every update before it was accepted and its index fits in 64 bits. */
  ghost predicate Reached(s: Live, answers: seq<Answer>, events: seq<Event>, places: seq<nat>, i: nat) {
    && i < |answers| && |places| == |events|
    && !answers[i].Nothing?
    && s.index + i + 1 <= MaxWord
    && Holes(answers[..i]) <= 1
    && forall k :: 0 <= k < |events| && places[k] < i ==> Accepted(s, events, k)
  }

  /** The events of a pass are the updates of the answers it gets to, in their order:
      `places` are those answers. */
  ghost predicate Passed(s: Live, answers: seq<Answer>, events: seq<Event>, places: seq<nat>, n: nat) {
    && n <= |answers|
    && |places| == |events|
    && (forall j, k :: 0 <= j < k < |places| ==> places[j] < places[k])
    && (forall k :: 0 <= k < |places| ==> places[k] < n && Brings(answers[places[k]], s.index + places[k] + 1, events[k]))
    && (forall i :: 0 <= i < n ==> (i in places <==> Reached(s, answers, events, places, i)))
  }

  ghost predicate AllAccepted(s: Live, events: seq<Event>) {
    forall k :: 0 <= k < |events| ==> Accepted(s, events, k)
  }

  /** One more update at the next place. */
  lemma {:induction false} PassedOne(s: Live, answers: seq<Answer>, events: seq<Event>, places: seq<nat>, n: nat, e: Event)
    requires Passed(s, answers, events, places, n) && n < |answers| && AllAccepted(s, events)
    requires Brings(answers[n], s.index + n + 1, e) && s.index + n + 1 <= MaxWord && Holes(answers[..n]) <= 1
    ensures Passed(s, answers, events + [e], places + [n], n + 1)
    ensures Accepted(s, events + [e], |events|) <==> Outcome(Run(s, events), e).Some?
    ensures forall k :: 0 <= k < |events| ==> Accepted(s, events + [e], k)
  {
    hide Outcome, Run, Holes;
    var more, there := events + [e], places + [n];
    forall k | 0 <= k < |events| ensures Accepted(s, more, k) {
      assert more[..k] == events[..k] && more[k] == events[k];
      assert Accepted(s, events, k);
    }
    assert more[..|events|] == events;
    assert n in there by { assert there[|places|] == n; }
    forall i | 0 <= i < n ensures i in there <==> Reached(s, answers, more, there, i) {
      assert i in there <==> i in places;
      assert Reached(s, answers, events, places, i) <==> Reached(s, answers, more, there, i);
    }
  }

  /** A missing index at the next place. */
  lemma {:induction false} PassedNothing(s: Live, answers: seq<Answer>, events: seq<Event>, places: seq<nat>, n: nat)
    requires Passed(s, answers, events, places, n) && n < |answers| && answers[n].Nothing?
    ensures Passed(s, answers, events, places, n + 1)
  {
    hide Accepted, Holes;
  }

  /** A pass may end where no later answer can be reached. */
  lemma {:induction false} PassedAll(s: Live, answers: seq<Answer>, events: seq<Event>, places: seq<nat>, n: nat)
    requires Passed(s, answers, events, places, n)
    requires n == |answers| || s.index + n + 1 > MaxWord || Holes(answers[..n]) >= 2 || !AllAccepted(s, events)
    ensures Passed(s, answers, events, places, |answers|)
  {
    hide Accepted, Holes;
    forall i | n <= i < |answers| ensures i !in places && !Reached(s, answers, events, places, i) {
      HolesGrow(answers, n, i);
    }
  }

  ghost function EventOf(answer: Answer, index: nat): (e: Event)
    requires !answer.Nothing?
    ensures Brings(answer, index, e)
  {
    match answer
    case Whole(lines) => Inline(index, lines)
    case Large(tail, whole) => Deferred(index, tail, whole)
  }

  lemma {:induction false} NonePassed(s: Live, answers: seq<Answer>)
    ensures Passed(s, answers, [], [], 0) && AllAccepted(s, []) && Holes(answers[..0]) == 0
  {}

  lemma {:induction false} OneMoreHole(answers: seq<Answer>, n: nat)
    requires n < |answers|
    ensures Holes(answers[..n + 1]) == Holes(answers[..n]) + if answers[n].Nothing? then 1 else 0
  {
    assert answers[..n + 1][..n] == answers[..n];
  }

  lemma {:induction false} EmptyRun(s: Live)
    ensures Run(s, []) == s && AlwaysAhead(s, [])
  {
    hide Step;
  }

  lemma {:induction false} RunAppend(s: Live, events: seq<Event>, e: Event)
    requires AlwaysAhead(s, events) && Ahead(Run(s, events), e)
    ensures Run(s, events + [e]) == Step(Run(s, events), e)
    ensures AlwaysAhead(s, events + [e])
  {
    hide Step;
    var more := events + [e];
    assert more[..|events|] == events;
    forall k | 0 <= k < |more| ensures Ahead(Run(s, more[..k]), more[k]) {
      assert k < |events| ==> more[..k] == events[..k];
    }
  }

  class LiveFeed {
    const playlist: HlsPlaylist
    var index: nat
    var skipped: nat

    function State(): Live
      reads this, playlist
    {
      Live(playlist.Value(), index, skipped)
    }

    constructor (first: Playlist, at: nat)
      ensures State() == Live(first, at, 0)
      ensures fresh(playlist)
    {
      playlist := new HlsPlaylist(first);
      index, skipped := at, 0;
    }

    method Apply(at: nat, lines: seq<Line>) returns (appended: Option<nat>)
      modifies this`index, playlist
      ensures appended.Some? <==> Outcome(old(State()), Inline(at, lines)).Some?
      ensures State() == Step(old(State()), Inline(at, lines))
      ensures index == if appended.Some? then Max(old(index), at) else old(index)
      ensures appended.None? ==> State() == old(State())
      ensures appended.Some? <==> Parse(lines).Some? && Joins(old(playlist.Value()), Parse(lines).value)
      ensures appended.Some? ==> playlist.Value() == Merged(old(playlist.Value()), Parse(lines).value)
      ensures appended.Some? ==> appended.value == End(State().playlist) - End(old(State().playlist))
    {
      hide Parse, Joins, Merged;
      var candidate := ParseManifest(lines);
      if candidate.None? {
        return None;
      }
      appended := playlist.MergePlaylist(candidate.value);
      if appended.Some? {
        index := Max(index, at);
      }
    }

    method ApplyCut(at: nat, lines: seq<Line>) returns (appended: Option<nat>)
      modifies this`index, playlist
      ensures appended.Some? <==> ApplyTail(old(State()), at, lines).Some?
      ensures appended.Some? ==> ApplyTail(old(State()), at, lines) == Some(State())
      ensures appended.None? ==> State() == old(State())
      ensures appended.Some? ==> appended.value == End(State().playlist) - End(old(State().playlist))
    {
      hide MergeTail;
      appended := playlist.MergeTailLines(lines);
      if appended.Some? {
        index := Max(index, at);
      }
    }

    method ApplyLarge(at: nat, tail: Option<seq<Line>>, whole: Option<seq<Line>>) returns (appended: Option<nat>)
      modifies this`index, playlist
      ensures appended.Some? <==> Outcome(old(State()), Deferred(at, tail, whole)).Some?
      ensures State() == Step(old(State()), Deferred(at, tail, whole))
      ensures index == if appended.Some? then Max(old(index), at) else old(index)
      ensures appended.None? ==> State() == old(State())
      ensures var held := old(playlist.Value());
              if tail.Some? && MergeTail(held, tail.value).Some?
              then appended.Some? && Some(playlist.Value()) == MergeTail(held, tail.value)
              else if whole.Some? && Parse(whole.value).Some? && Joins(held, Parse(whole.value).value)
              then appended.Some? && playlist.Value() == Merged(held, Parse(whole.value).value)
              else appended.None?
    {
      hide Parse, Joins, Merged, MergeTail;
      if tail.Some? {
        appended := ApplyCut(at, tail.value);
        if appended.Some? {
          return appended;
        }
      }
      if whole.None? {
        return None;
      }
      appended := Apply(at, whole.value);
    }

    method RecoverFrontier(at: nat, lines: seq<Line>) returns (progressed: bool)
      modifies this, playlist
      ensures progressed <==> Outcome(old(State()), Frontier(at, lines)).Some?
      ensures State() == Step(old(State()), Frontier(at, lines))
    {
      hide Parse, Joins, Merged;
      if at < index {
        return false;
      }
      var candidate := ParseManifest(lines);
      if candidate.None? {
        return false;
      }
      if at == index {
        if !candidate.value.finalized || playlist.finalized {
          return false;
        }
        playlist.finalized := true;
        return true;
      }
      var appended := playlist.MergePlaylist(candidate.value);
      if appended.Some? {
        index := Max(index, at);
        return true;
      }
      var previousEnd := SaturatingAdd(playlist.sequence, |playlist.segments|);
      skipped := SaturatingAdd(skipped, SaturatingSub(candidate.value.sequence, previousEnd));
      playlist.Replace(candidate.value);
      index := at;
      return true;
    }

    /** One pass over the indices ahead: a run of exactly the updates it gets to, each
        beyond the index applied before it. */
    method Pass(answers: seq<Answer>) returns (progressed: bool, ghost events: seq<Event>, ghost places: seq<nat>)
      requires |answers| == FollowAhead
      modifies this`index, playlist
      ensures State() == Run(old(State()), events) && AlwaysAhead(old(State()), events)
      ensures Passed(old(State()), answers, events, places, |answers|)
      ensures progressed <==> exists k :: 0 <= k < |events| && Accepted(old(State()), events, k)
      ensures !progressed ==> State() == old(State())
    {
      hide Step, Outcome, Run, AlwaysAhead, Passed, Accepted, Holes, Brings;
      var head := index;
      progressed, events, places := false, [], [];
      EmptyRun(State());
      NonePassed(State(), answers);
      var skippedMissing := false;
      for offset := 1 to FollowAhead + 1
        invariant index < head + offset && head == old(index) && skipped == old(skipped)
        invariant State() == Run(old(State()), events) && AlwaysAhead(old(State()), events)
        invariant Passed(old(State()), answers, events, places, offset - 1) && AllAccepted(old(State()), events)
        invariant Holes(answers[..offset - 1]) == if skippedMissing then 1 else 0
        invariant if progressed then events != [] && Accepted(old(State()), events, 0) else events == []
        invariant !progressed ==> State() == old(State())
      {
        var at := head + offset;
        if at >= WordSize {
          PassedAll(old(State()), answers, events, places, offset - 1);
          return;
        }
        OneMoreHole(answers, offset - 1);
        if answers[offset - 1].Nothing? {
          PassedNothing(old(State()), answers, events, places, offset - 1);
          if skippedMissing {
            PassedAll(old(State()), answers, events, places, offset);
            return;
          }
          skippedMissing := true;
        } else {
          var appended;
          ghost var e, before := EventOf(answers[offset - 1], at), events;
          RunAppend(old(State()), events, e);
          PassedOne(old(State()), answers, events, places, offset - 1, e);
          events, places := events + [e], places + [offset - 1];
          match answers[offset - 1] {
            case Whole(lines) => appended := Apply(at, lines);
            case Large(tail, whole) => appended := ApplyLarge(at, tail, whole);
          }
          assert Accepted(old(State()), events, |before|) <==> appended.Some?;
          assert progressed ==> Accepted(old(State()), events, 0);
          if appended.None? {
            assert !progressed ==> |events| == 1;
            PassedAll(old(State()), answers, events, places, offset);
            return;
          }
          progressed := true;
        }
      }
    }
  }
}
