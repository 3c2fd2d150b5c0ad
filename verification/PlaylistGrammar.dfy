/** What a manifest's text must look like to be read, and what it then says, told by
    positions of lines instead of by the reader's state. */
module PlaylistGrammar {
  import opened Options
  import opened References
  import opened Playlists

  // ----- Segments

  /** Line `j` announces a duration and no URI has come since. */
  predicate Pending(lines: seq<Line>, n: nat, j: nat) {
    j < n <= |lines| && lines[j].ExtInf? && forall k :: j < k < n ==> !lines[k].Uri?
  }

  ghost predicate Awaits(lines: seq<Line>, n: nat) {
    exists j: nat :: Pending(lines, n, j)
  }

  /** The URI that completes a segment. */
  ghost predicate Closes(lines: seq<Line>, i: nat) {
    i < |lines| && lines[i].Uri? && Awaits(lines, i)
  }

  predicate OpenGap(lines: seq<Line>, n: nat, g: nat) {
    g < n <= |lines| && lines[g].Gap? && forall k :: g < k < n ==> !lines[k].Uri?
  }

  ghost predicate InGap(lines: seq<Line>, n: nat) {
    exists g: nat :: OpenGap(lines, n, g)
  }

  /** A discontinuity that no segment has followed. */
  ghost predicate OpenBreak(lines: seq<Line>, n: nat, d: nat) {
    d < n <= |lines| && lines[d].Discontinuity? && forall k :: d < k < n ==> !Closes(lines, k)
  }

  ghost predicate InBreak(lines: seq<Line>, n: nat) {
    exists d: nat :: OpenBreak(lines, n, d)
  }

  function Breaks(lines: seq<Line>, n: nat): nat
    requires n <= |lines|
  {
    if n == 0 then 0 else Breaks(lines, n - 1) + if lines[n - 1].Discontinuity? then 1 else 0
  }

  /** Whether a line may stand where it does: one positive duration for a segment, a gap
      only after its duration, one discontinuity between segments, and a reference where
      a segment is completed. */
  ghost predicate LineFits(lines: seq<Line>, start: nat, i: nat)
    requires i < |lines|
  {
    match lines[i]
    case ExtInf(value) => value.Some? && value.value > 0 && !Awaits(lines, i)
    case Gap => Awaits(lines, i)
    case Discontinuity => !InBreak(lines, i) && start + Breaks(lines, i) + 1 < WordSize
    case Uri(text) => Awaits(lines, i) ==> SwarmReference(text).Some?
    case _ => true
  }

  ghost predicate LinesFit(lines: seq<Line>, start: nat, n: nat)
    requires n <= |lines|
  {
    forall i :: 0 <= i < n ==> LineFits(lines, start, i)
  }

  /** The segment that the URI at `i` completes. */
  ghost predicate Shows(lines: seq<Line>, start: nat, i: nat, s: Segment) {
    && Closes(lines, i)
    && SwarmReference(lines[i].text).Some? && s.reference == Lower(SwarmReference(lines[i].text).value)
    && (exists j: nat :: Pending(lines, i, j) && lines[j].value == Some(s.duration))
    && (s.gap <==> InGap(lines, i))
    && s.discontinuity == start + Breaks(lines, i)
  }

  ghost function SegmentPlaces(lines: seq<Line>, n: nat): (places: seq<nat>)
    requires n <= |lines|
    ensures forall i: nat :: i in places <==> i < n && Closes(lines, i)
    ensures forall j, k :: 0 <= j < k < |places| ==> places[j] < places[k]
  {
    if n == 0 then []
    else
      var earlier := SegmentPlaces(lines, n - 1);
      assert forall k :: 0 <= k < |earlier| ==> earlier[k] in earlier;
      if Closes(lines, n - 1) then earlier + [n - 1] else earlier
  }

  ghost predicate ShowAll(lines: seq<Line>, start: nat, n: nat, segments: seq<Segment>)
    requires n <= |lines|
  {
    && |segments| == |SegmentPlaces(lines, n)|
    && forall k :: 0 <= k < |segments| ==> Shows(lines, start, SegmentPlaces(lines, n)[k], segments[k])
  }

  /** The reader's state after `n` lines, by positions. */
  ghost predicate Describes(r: Reading, lines: seq<Line>, start: nat, n: nat)
    requires n <= |lines|
  {
    && (r.duration.Some? <==> Awaits(lines, n))
    && (forall j: nat :: Pending(lines, n, j) ==> lines[j].value == r.duration)
    && (r.gap <==> InGap(lines, n))
    && (r.gap ==> r.duration.Some?)
    && (r.broken <==> InBreak(lines, n))
    && r.discontinuity == start + Breaks(lines, n)
    && ShowAll(lines, start, n, r.segments)
  }

  lemma {:induction false} PendingNext(lines: seq<Line>, n: nat, j: nat)
    requires n < |lines|
    ensures Pending(lines, n + 1, j) <==> (j == n && lines[n].ExtInf?) || (Pending(lines, n, j) && !lines[n].Uri?)
    ensures OpenGap(lines, n + 1, j) <==> (j == n && lines[n].Gap?) || (OpenGap(lines, n, j) && !lines[n].Uri?)
  {
    if Pending(lines, n + 1, j) || OpenGap(lines, n + 1, j) {
      assert j < n ==> !lines[n].Uri?;
    }
  }

  lemma {:induction false} BreakNext(lines: seq<Line>, n: nat, d: nat)
    requires n < |lines|
    ensures OpenBreak(lines, n + 1, d) <==> (d == n && lines[n].Discontinuity?) || (OpenBreak(lines, n, d) && !Closes(lines, n))
  {
    hide Closes;
    if OpenBreak(lines, n + 1, d) {
      assert d < n ==> !Closes(lines, n);
    }
  }

  lemma {:induction false} AwaitsNext(lines: seq<Line>, n: nat)
    requires n < |lines|
    ensures Awaits(lines, n + 1) <==> lines[n].ExtInf? || (Awaits(lines, n) && !lines[n].Uri?)
    ensures InGap(lines, n + 1) <==> lines[n].Gap? || (InGap(lines, n) && !lines[n].Uri?)
  {
    hide Pending, OpenGap;
    PendingNext(lines, n, n);
    if lines[n].ExtInf? {
      assert Pending(lines, n + 1, n);
    } else if Awaits(lines, n) && !lines[n].Uri? {
      var j: nat :| Pending(lines, n, j);
      PendingNext(lines, n, j);
    }
    if Awaits(lines, n + 1) && !lines[n].ExtInf? {
      var j: nat :| Pending(lines, n + 1, j);
      PendingNext(lines, n, j);
    }
    if lines[n].Gap? {
      assert OpenGap(lines, n + 1, n);
    } else if InGap(lines, n) && !lines[n].Uri? {
      var g: nat :| OpenGap(lines, n, g);
      PendingNext(lines, n, g);
    }
    if InGap(lines, n + 1) && !lines[n].Gap? {
      var g: nat :| OpenGap(lines, n + 1, g);
      PendingNext(lines, n, g);
    }
  }

  lemma {:induction false} OpenBreakNext(lines: seq<Line>, n: nat)
    requires n < |lines|
    ensures InBreak(lines, n + 1) <==>
              lines[n].Discontinuity? || (InBreak(lines, n) && !Closes(lines, n))
  {
    hide OpenBreak;
    BreakNext(lines, n, n);
    if lines[n].Discontinuity? {
      assert OpenBreak(lines, n + 1, n);
    } else if InBreak(lines, n) && !Closes(lines, n) {
      var d: nat :| OpenBreak(lines, n, d);
      BreakNext(lines, n, d);
    }
    if InBreak(lines, n + 1) && !lines[n].Discontinuity? {
      var d: nat :| OpenBreak(lines, n + 1, d);
      BreakNext(lines, n, d);
    }
  }

  lemma {:induction false} ShowAllNext(lines: seq<Line>, start: nat, n: nat, segments: seq<Segment>, more: seq<Segment>)
    requires n < |lines| && ShowAll(lines, start, n, segments)
    requires if Closes(lines, n) then |more| == 1 && Shows(lines, start, n, more[0]) else more == []
    ensures ShowAll(lines, start, n + 1, segments + more)
  {
    hide Closes, Shows;
  }

  /** A line is read exactly when it fits, and the state stays described. */
  lemma {:induction false} ReadStep(r: Reading, lines: seq<Line>, start: nat, n: nat)
    requires n < |lines| && Describes(r, lines, start, n)
    ensures ReadLine(r, lines[n]).Some? <==> LineFits(lines, start, n)
    ensures LineFits(lines, start, n) ==> Describes(ReadLine(r, lines[n]).value, lines, start, n + 1)
  {
    hide ShowAll, Shows, OpenBreak, SwarmReference, Lower;
    AwaitsNext(lines, n);
    OpenBreakNext(lines, n);
    if LineFits(lines, start, n) {
      if Closes(lines, n) {
        var segment := Segment(Lower(SwarmReference(lines[n].text).value), r.duration.value, r.gap, r.discontinuity);
        ClosedShows(r, lines, start, n, segment);
        ShowAllNext(lines, start, n, r.segments, [segment]);
      } else {
        ShowAllNext(lines, start, n, r.segments, []);
        assert r.segments + [] == r.segments;
        forall j: nat | Pending(lines, n + 1, j) ensures lines[j].value == ReadLine(r, lines[n]).value.duration {
          PendingNext(lines, n, j);
        }
      }
    }
  }

  lemma {:induction false} ClosedShows(r: Reading, lines: seq<Line>, start: nat, n: nat, segment: Segment)
    requires n < |lines| && Describes(r, lines, start, n) && Closes(lines, n) && SwarmReference(lines[n].text).Some?
    requires segment == Segment(Lower(SwarmReference(lines[n].text).value), r.duration.value, r.gap, r.discontinuity)
    ensures Shows(lines, start, n, segment)
  {
    hide ShowAll, OpenBreak, SwarmReference, Lower, OpenGap;
    var j: nat :| Pending(lines, n, j);
    assert lines[j].value == Some(segment.duration);
  }

  lemma {:induction false} ReadPrefix(lines: seq<Line>, start: nat, n: nat)
    requires n <= |lines|
    ensures ReadLines(Unread(start), lines[..n]).Some? <==> LinesFit(lines, start, n)
    ensures LinesFit(lines, start, n) ==> Describes(ReadLines(Unread(start), lines[..n]).value, lines, start, n)
  {
    hide Describes, LineFits, ReadLine, ReadLines;
    if n == 0 {
      NothingRead(lines, start);
    } else {
      ReadPrefix(lines, start, n - 1);
      assert lines[..n] == lines[..n - 1] + [lines[n - 1]];
      ReadLinesSplit(Unread(start), lines[..n - 1], [lines[n - 1]]);
      if LinesFit(lines, start, n - 1) {
        var r := ReadLines(Unread(start), lines[..n - 1]).value;
        ReadOne(r, lines[n - 1]);
        ReadStep(r, lines, start, n - 1);
      }
    }
  }

  lemma {:induction false} NothingRead(lines: seq<Line>, start: nat)
    ensures ReadLines(Unread(start), lines[..0]) == Some(Unread(start)) && Describes(Unread(start), lines, start, 0)
  {}

  /** Segment lines are read exactly when every line fits and no duration is left over;
      the segments are those that the completing URIs show, in order. */
  lemma {:induction false} ParseSegmentsIff(lines: seq<Line>, start: nat)
    ensures ParseSegments(lines, start).Some? <==> LinesFit(lines, start, |lines|) && !Awaits(lines, |lines|)
    ensures ParseSegments(lines, start).Some? ==> ShowAll(lines, start, |lines|, ParseSegments(lines, start).value)
  {
    hide ReadLines, LinesFit, ShowAll, OpenBreak, OpenGap, Pending;
    ReadPrefix(lines, start, |lines|);
    assert lines[..|lines|] == lines;
  }

  // ----- Tags

  lemma {:induction false} ReadTagsSplit(t: Tags, a: seq<Line>, b: seq<Line>)
    ensures ReadTags(t, a + b) == if ReadTags(t, a).None? then None else ReadTags(ReadTags(t, a).value, b)
    decreases |a|
  {
    hide ReadTag;
    if a == [] {
      assert a + b == b;
    } else {
      assert (a + b)[1..] == a[1..] + b;
      var next := ReadTag(t, a[0]);
      if next.Some? {
        ReadTagsSplit(next.value, a[1..], b);
      }
    }
  }

  /** The three tags stand at most once each, with values that can be read. */
  ghost predicate TagsFit(lines: seq<Line>) {
    && (forall i :: 0 <= i < |lines| ==>
          && (lines[i].MediaSequence? ==> lines[i].number.Some?)
          && (lines[i].DiscontinuitySequence? ==> lines[i].number.Some?)
          && (lines[i].TargetDuration? ==> lines[i].number.Some?))
    && (forall i, j :: 0 <= i < j < |lines| ==>
          && !(lines[i].MediaSequence? && lines[j].MediaSequence?)
          && !(lines[i].DiscontinuitySequence? && lines[j].DiscontinuitySequence?)
          && !(lines[i].TargetDuration? && lines[j].TargetDuration?))
  }

  /** The values are those the lines carry, and absent where no line does. */
  ghost predicate TagsAre(t: Tags, lines: seq<Line>) {
    && (t.sequence.Some? <==> exists i :: 0 <= i < |lines| && lines[i].MediaSequence?)
    && (t.discontinuity.Some? <==> exists i :: 0 <= i < |lines| && lines[i].DiscontinuitySequence?)
    && (t.target.Some? <==> exists i :: 0 <= i < |lines| && lines[i].TargetDuration?)
    && forall i :: 0 <= i < |lines| ==>
         && (lines[i].MediaSequence? ==> lines[i].number == t.sequence)
         && (lines[i].DiscontinuitySequence? ==> lines[i].number == t.discontinuity)
         && (lines[i].TargetDuration? && lines[i].number.Some? ==> t.target == Some(Max(lines[i].number.value, 1)))
  }

  lemma {:induction false} TagStep(t: Tags, lines: seq<Line>, line: Line)
    requires TagsFit(lines) && TagsAre(t, lines)
    ensures ReadTag(t, line).Some? <==> TagsFit(lines + [line])
    ensures ReadTag(t, line).Some? ==> TagsAre(ReadTag(t, line).value, lines + [line])
  {
    var all := lines + [line];
    assert all[|lines|] == line;
    assert forall i :: 0 <= i < |lines| ==> all[i] == lines[i];
  }

  lemma {:induction false} FitsBefore(lines: seq<Line>, line: Line)
    requires TagsFit(lines + [line])
    ensures TagsFit(lines)
  {
    var all := lines + [line];
    assert forall i :: 0 <= i < |lines| ==> all[i] == lines[i];
  }

  lemma {:induction false} TagsIff(lines: seq<Line>)
    ensures ReadTags(Tags(None, None, None), lines).Some? <==> TagsFit(lines)
    ensures TagsFit(lines) ==> TagsAre(ReadTags(Tags(None, None, None), lines).value, lines)
    decreases |lines|
  {
    if lines != [] {
      hide TagsFit, TagsAre, ReadTag;
      var init, line := lines[..|lines| - 1], lines[|lines| - 1];
      assert lines == init + [line];
      TagsIff(init);
      ReadTagsSplit(Tags(None, None, None), init, [line]);
      if TagsFit(init) {
        var t := ReadTags(Tags(None, None, None), init).value;
        TagStep(t, init, line);
        ReadOneTag(t, line);
      } else if TagsFit(lines) {
        FitsBefore(init, line);
      }
    }
  }

  lemma {:induction false} ReadOneTag(t: Tags, line: Line)
    ensures ReadTags(t, [line]) == ReadTag(t, line)
  {
    hide ReadTag;
  }

  // ----- Whole manifests

  /** Nothing but blank lines before the header. */
  ghost predicate StartsWithHeader(lines: seq<Line>) {
    exists i :: 0 <= i < |lines| && lines[i] == Header && forall k :: 0 <= k < i ==> lines[k] == Blank
  }

  /** Nothing but blank lines after the end mark. */
  ghost predicate EndsWithEndList(lines: seq<Line>) {
    exists i :: 0 <= i < |lines| && lines[i] == EndList && forall k :: i < k < |lines| ==> lines[k] == Blank
  }

  lemma {:induction false} HeaderFirst(lines: seq<Line>)
    ensures FirstMeaningful(lines) == Some(Header) <==> StartsWithHeader(lines)
    decreases |lines|
  {
    if lines != [] && lines[0] == Blank {
      HeaderFirst(lines[1..]);
      if StartsWithHeader(lines[1..]) {
        var i :| 0 <= i < |lines| - 1 && lines[1..][i] == Header && forall k :: 0 <= k < i ==> lines[1..][k] == Blank;
        assert forall k :: 0 < k < i + 1 ==> lines[k] == lines[1..][k - 1];
        assert lines[i + 1] == Header;
      }
      if StartsWithHeader(lines) {
        var i :| 0 <= i < |lines| && lines[i] == Header && forall k :: 0 <= k < i ==> lines[k] == Blank;
        assert lines[1..][i - 1] == Header;
      }
    }
  }

  lemma {:induction false} EndListLast(lines: seq<Line>)
    ensures HasEndList(lines) <==> EndsWithEndList(lines)
    decreases |lines|
  {
    if lines != [] && lines[|lines| - 1] == Blank {
      var init := lines[..|lines| - 1];
      EndListLast(init);
      if EndsWithEndList(init) {
        var i :| 0 <= i < |init| && init[i] == EndList && forall k :: i < k < |init| ==> init[k] == Blank;
        assert forall k :: i < k < |init| ==> lines[k] == init[k];
        assert lines[i] == EndList;
      }
      if EndsWithEndList(lines) {
        var i :| 0 <= i < |lines| && lines[i] == EndList && forall k :: i < k < |lines| ==> lines[k] == Blank;
        assert init[i] == EndList;
      }
    }
  }

  /** The discontinuity number the first segment counts from. */
  ghost predicate CountsFrom(lines: seq<Line>, start: nat) {
    && (forall i :: 0 <= i < |lines| && lines[i].DiscontinuitySequence? ==> lines[i].number == Some(start))
    && ((forall i :: 0 <= i < |lines| ==> !lines[i].DiscontinuitySequence?) ==> start == 0)
  }

  /** A manifest is read exactly when it starts with the header, its tags stand once and
      can be read, its lines fit, and some segment is complete. */
  lemma {:induction false} ParseIff(lines: seq<Line>, start: nat)
    requires TagsFit(lines) ==> CountsFrom(lines, start)
    ensures Parse(lines).Some? <==>
              && StartsWithHeader(lines) && TagsFit(lines)
              && LinesFit(lines, start, |lines|) && !Awaits(lines, |lines|) && SegmentPlaces(lines, |lines|) != []
  {
    hide LinesFit, Awaits, SegmentPlaces, ReadTags, ParseSegments, FirstMeaningful, StartsWithHeader, HasEndList, Measured;
    HeaderFirst(lines);
    TagsIff(lines);
    ParseSegmentsIff(lines, start);
  }

  /** What a manifest that is read says: the numbers of its tags or their defaults, the
      segments its lines show, the least target that covers the declared one and every
      segment, and whether it has ended. */
  lemma {:induction false} ParseSays(lines: seq<Line>)
    requires Parse(lines).Some?
    ensures var p := Parse(lines).value;
            && CountsFrom(lines, p.discontinuity)
            && ShowAll(lines, p.discontinuity, |lines|, p.segments)
            && (p.finalized <==> EndsWithEndList(lines))
            && (forall i :: 0 <= i < |lines| && lines[i].MediaSequence? ==> lines[i].number == Some(p.sequence))
            && ((forall i :: 0 <= i < |lines| ==> !lines[i].MediaSequence?) ==> p.sequence == 0)
            && TargetCovers(lines, p.segments, p.target)
            && (forall target: nat :: TargetCovers(lines, p.segments, target) ==> p.target <= target)
  {
    hide SegmentPlaces, ReadTags, ParseSegments, FirstMeaningful, HasEndList, Measured, ShowAll, Rounded;
    TagsIff(lines);
    EndListLast(lines);
    var p := Parse(lines).value;
    ParseSegmentsIff(lines, p.discontinuity);
    MeasuredLeast(p.segments);
  }

  /** The target is no less than the declared one, one second, or any segment. */
  ghost predicate TargetCovers(lines: seq<Line>, segments: seq<Segment>, target: nat) {
    && (forall i :: 0 <= i < |lines| && lines[i].TargetDuration? && lines[i].number.Some? ==> lines[i].number.value <= target)
    && Covers(segments, target)
  }

  ghost predicate Covers(segments: seq<Segment>, target: nat) {
    target >= 1 && forall k :: 0 <= k < |segments| ==> Rounded(segments[k].duration) <= target
  }

  lemma {:induction false} MeasuredLeast(segments: seq<Segment>)
    ensures Covers(segments, Measured(segments))
    ensures forall target: nat :: Covers(segments, target) ==> Measured(segments) <= target
    decreases |segments|
  {
    hide Rounded;
    if segments != [] {
      var init := segments[..|segments| - 1];
      MeasuredLeast(init);
      forall target: nat | Covers(segments, target) ensures Measured(segments) <= target {
        assert Covers(init, target);
      }
    }
  }
}
