/** A tail cut of a manifest extends a held playlist as the whole manifest does. */
module PlaylistTails {
  import opened Options
  import opened References
  import opened Playlists

  // ----- A cut reads as a suffix of the manifest

  /** `c` is the end of `s`, its discontinuity numbers off by a constant. */
  ghost predicate SuffixOf(c: seq<Segment>, s: seq<Segment>, offset: int) {
    && |c| <= |s|
    && forall i :: 0 <= i < |c| ==>
         && SamePayload(c[i], s[|s| - |c| + i])
         && s[|s| - |c| + i].discontinuity == c[i].discontinuity + offset
  }

  /** How reading from a cut compares with reading from the start: either the cut
      has met no segment yet, or both are in the same place. */
  ghost predicate Follows(g: Reading, f: Reading, offset: int) {
    && SuffixOf(g.segments, f.segments, offset)
    && f.discontinuity == g.discontinuity + offset
    && (f.gap ==> f.duration.Some?)
    && ( || (g.segments == [] && g.duration.None? && !g.gap)
         || (g.duration == f.duration && g.gap == f.gap))
  }

  lemma {:induction false} FollowsLine(g: Reading, f: Reading, line: Line, offset: int)
    requires Follows(g, f, offset)
    requires ReadLine(g, line).Some? && ReadLine(f, line).Some?
    ensures Follows(ReadLine(g, line).value, ReadLine(f, line).value, offset)
  {
    hide SwarmReference, Lower;
  }

  lemma {:induction false} FollowsLines(g: Reading, f: Reading, lines: seq<Line>, offset: int)
    requires Follows(g, f, offset)
    requires ReadLines(g, lines).Some? && ReadLines(f, lines).Some?
    ensures Follows(ReadLines(g, lines).value, ReadLines(f, lines).value, offset)
    decreases |lines|
  {
    hide Follows, ReadLine;
    if lines != [] {
      FollowsLine(g, f, lines[0], offset);
      FollowsLines(ReadLine(g, lines[0]).value, ReadLine(f, lines[0]).value, lines[1..], offset);
    }
  }

  lemma {:induction false} GapNeedsDuration(f: Reading, lines: seq<Line>)
    requires f.gap ==> f.duration.Some?
    requires ReadLines(f, lines).Some?
    ensures ReadLines(f, lines).value.gap ==> ReadLines(f, lines).value.duration.Some?
    decreases |lines|
  {
    if lines != [] {
      GapNeedsDuration(ReadLine(f, lines[0]).value, lines[1..]);
    }
  }

  /** Reading on from anywhere gives a suffix of what the whole manifest gives,
      provided the fragment does not pass for another duration. */
  lemma {:induction false} CutIsSuffix(before: seq<Line>, line: Line, fragment: Line, after: seq<Line>, start: nat) returns (offset: int)
    requires ParseSegments(before + [line] + after, start).Some?
    requires fragment.ExtInf? ==> fragment == line
    requires ParseSegments([fragment] + after, 0).Some?
    ensures SuffixOf(ParseSegments([fragment] + after, 0).value, ParseSegments(before + [line] + after, start).value, offset)
  {
    hide Follows;
    ReadLinesSplit(Unread(start), before + [line], after);
    ReadLinesSplit(Unread(start), before, [line]);
    ReadLinesSplit(Unread(0), [fragment], after);
    var early := ReadLines(Unread(start), before).value;
    GapNeedsDuration(Unread(start), before);
    ReadOne(early, line);
    ReadOne(Unread(0), fragment);
    var f := ReadLine(early, line).value;
    var g := ReadLine(Unread(0), fragment).value;
    offset := f.discontinuity - g.discontinuity;
    FragmentFollows(early, line, fragment);
    FollowsLines(g, f, after, offset);
    assert Follows(ReadLines(g, after).value, ReadLines(f, after).value, offset);
    FollowsMeans(ReadLines(g, after).value, ReadLines(f, after).value, offset);
  }

  lemma {:induction false} FollowsMeans(g: Reading, f: Reading, offset: int)
    requires Follows(g, f, offset)
    ensures SuffixOf(g.segments, f.segments, offset)
  {}

  lemma {:induction false} FragmentFollows(early: Reading, line: Line, fragment: Line)
    requires early.gap ==> early.duration.Some?
    requires ReadLine(early, line).Some? && ReadLine(Unread(0), fragment).Some?
    requires fragment.ExtInf? ==> fragment == line
    ensures var g, f := ReadLine(Unread(0), fragment).value, ReadLine(early, line).value;
            Follows(g, f, f.discontinuity - g.discontinuity)
  {}

  lemma {:induction false} DropFirst(after: seq<Line>)
    requires ParseSegments(after, 0).Some?
    ensures ParseSegments([Blank] + after, 0) == ParseSegments(after, 0)
  {
    assert ([Blank] + after)[1..] == after;
  }

  lemma {:induction false} TailIsSuffix(before: seq<Line>, line: Line, fragment: Line, after: seq<Line>, start: nat) returns (offset: int)
    requires ParseSegments(before + [line] + after, start).Some?
    requires fragment.ExtInf? ==> fragment == line
    requires TailCandidates([fragment] + after).Some?
    ensures SuffixOf(TailCandidates([fragment] + after).value, ParseSegments(before + [line] + after, start).value, offset)
  {
    hide ParseSegments, SuffixOf;
    var whole := ParseSegments([fragment] + after, 0);
    if whole.Some? && whole.value != [] {
      offset := CutIsSuffix(before, line, fragment, after, start);
    } else {
      assert ([fragment] + after)[1..] == after;
      DropFirst(after);
      offset := CutIsSuffix(before, line, Blank, after, start);
    }
  }

  // ----- Whatever the fragment reads as

  /** How reading from any cut compares with reading from the start: it has no
      segment yet, or both are in the same place and all segments of the cut but
      the first are the manifest's. */
  ghost predicate Trails(g: Reading, f: Reading, offset: int) {
    && f.discontinuity == g.discontinuity + offset
    && (f.gap ==> f.duration.Some?)
    && (g.gap ==> g.duration.Some?)
    && (g.segments == [] || (SuffixOf(g.segments[1..], f.segments, offset) && g.duration == f.duration && g.gap == f.gap))
  }

  lemma {:induction false} TrailsLine(g: Reading, f: Reading, line: Line, offset: int)
    requires Trails(g, f, offset)
    requires ReadLine(g, line).Some? && ReadLine(f, line).Some?
    ensures Trails(ReadLine(g, line).value, ReadLine(f, line).value, offset)
  {
    hide SwarmReference, Lower;
  }

  lemma {:induction false} TrailsLines(g: Reading, f: Reading, lines: seq<Line>, offset: int)
    requires Trails(g, f, offset)
    requires ReadLines(g, lines).Some? && ReadLines(f, lines).Some?
    ensures Trails(ReadLines(g, lines).value, ReadLines(f, lines).value, offset)
    decreases |lines|
  {
    hide Trails, ReadLine;
    if lines != [] {
      TrailsLine(g, f, lines[0], offset);
      TrailsLines(ReadLine(g, lines[0]).value, ReadLine(f, lines[0]).value, lines[1..], offset);
    }
  }

  lemma {:induction false} FragmentTrails(early: Reading, line: Line, fragment: Line)
    requires early.gap ==> early.duration.Some?
    requires ReadLine(early, line).Some? && ReadLine(Unread(0), fragment).Some?
    ensures var g, f := ReadLine(Unread(0), fragment).value, ReadLine(early, line).value;
            Trails(g, f, f.discontinuity - g.discontinuity)
  {
    hide SwarmReference, Lower;
  }

  /** All segments of a cut but its first are the end of the manifest's. */
  ghost predicate EndsAs(c: seq<Segment>, s: seq<Segment>, offset: int) {
    c == [] || SuffixOf(c[1..], s, offset)
  }

  lemma {:induction false} CutEndsAs(before: seq<Line>, line: Line, fragment: Line, after: seq<Line>, start: nat) returns (offset: int)
    requires ParseSegments(before + [line] + after, start).Some?
    requires ParseSegments([fragment] + after, 0).Some?
    ensures EndsAs(ParseSegments([fragment] + after, 0).value, ParseSegments(before + [line] + after, start).value, offset)
  {
    hide Trails, SuffixOf, ReadLine;
    ReadLinesSplit(Unread(start), before + [line], after);
    ReadLinesSplit(Unread(start), before, [line]);
    ReadLinesSplit(Unread(0), [fragment], after);
    var early := ReadLines(Unread(start), before).value;
    GapNeedsDuration(Unread(start), before);
    ReadOne(early, line);
    ReadOne(Unread(0), fragment);
    var f := ReadLine(early, line).value;
    var g := ReadLine(Unread(0), fragment).value;
    offset := f.discontinuity - g.discontinuity;
    FragmentTrails(early, line, fragment);
    TrailsLines(g, f, after, offset);
    TrailsMeans(ReadLines(g, after).value, ReadLines(f, after).value, offset);
  }

  lemma {:induction false} TrailsMeans(g: Reading, f: Reading, offset: int)
    requires Trails(g, f, offset)
    ensures EndsAs(g.segments, f.segments, offset)
  {}

  lemma {:induction false} TailEndsAs(before: seq<Line>, line: Line, fragment: Line, after: seq<Line>, start: nat) returns (offset: int)
    requires ParseSegments(before + [line] + after, start).Some?
    requires TailCandidates([fragment] + after).Some?
    ensures EndsAs(TailCandidates([fragment] + after).value, ParseSegments(before + [line] + after, start).value, offset)
  {
    hide ParseSegments, EndsAs;
    var whole := ParseSegments([fragment] + after, 0);
    if whole.Some? && whole.value != [] {
      offset := CutEndsAs(before, line, fragment, after, start);
    } else {
      assert ([fragment] + after)[1..] == after;
      DropFirst(after);
      offset := CutEndsAs(before, line, Blank, after, start);
    }
  }

  /** What an extended playlist has more than the held one. */
  function Appended(p: Playlist, t: Playlist): seq<Segment>
    requires |p.segments| <= |t.segments|
  {
    t.segments[|p.segments|..]
  }

  /** `t` is `p` with the last segments of `q`, their numbers off by a constant. */
  ghost predicate Extends(p: Playlist, q: Playlist, t: Playlist, offset: int) {
    && p.segments <= t.segments
    && SuffixOf(Appended(p, t), q.segments, offset)
    && t.sequence == p.sequence && t.discontinuity == p.discontinuity && t.finalized == q.finalized
  }

  lemma {:induction false} ShiftedTail(c: seq<Segment>, s: seq<Segment>, offset: int, o: nat, shift: int)
    requires o < |c| && EndsAs(c, s, offset) && forall i :: 0 <= i < |c| - o ==> c[o..][i].discontinuity + shift >= 0
    ensures SuffixOf(Shifted(c[o..], shift)[1..], s, offset - shift)
  {
    hide Shifted;
    var tail := Shifted(c[o..], shift)[1..];
    forall i | 0 <= i < |tail|
      ensures SamePayload(tail[i], s[|s| - |tail| + i]) && s[|s| - |tail| + i].discontinuity == tail[i].discontinuity + (offset - shift)
    {
      assert tail[i] == Shifted(c[o..], shift)[i + 1];
      assert c[o..][i + 1] == c[1..][o + i];
    }
  }

  lemma {:induction false} TailMergedExtends(p: Playlist, q: Playlist, c: seq<Segment>, finalized: bool, offset: int) returns (change: int)
    requires EndsAs(c, q.segments, offset) && TailMerged(p, c, finalized).Some? && finalized == q.finalized
    ensures Extends(p, q, TailMerged(p, c, finalized).value, change)
  {
    hide SuffixOf, Shifted, Measured, LastMatch, EndsAs;
    var last := p.segments[|p.segments| - 1];
    var o := LastMatch(c, last).value;
    var shift := last.discontinuity - c[o].discontinuity;
    change := offset - shift;
    ShiftedTail(c, q.segments, offset, o, shift);
    var t := TailMerged(p, c, finalized).value;
    assert Appended(p, t) == Shifted(c[o..], shift)[1..];
  }

  /** Whatever the cut, a tail merge that succeeds appends the last segments of the
      manifest, payload for payload, with all numbers off by one constant, and the
      manifest's end flag; even where the manifest itself would not merge. */
  lemma {:induction false} TailAppends(p: Playlist, before: seq<Line>, line: Line, fragment: Line, after: seq<Line>) returns (change: int)
    requires Parse(before + [line] + after).Some? && MergeTail(p, [fragment] + after).Some?
    ensures Extends(p, Parse(before + [line] + after).value, MergeTail(p, [fragment] + after).value, change)
  {
    hide ParseSegments, TailCandidates, HasEndList, EndsAs, ReadTags, Measured, TailMerged, Extends;
    var q := Parse(before + [line] + after).value;
    var c := TailCandidates([fragment] + after).value;
    var offset := TailEndsAs(before, line, fragment, after, q.discontinuity);
    assert c != [] by { TailNeedsCandidates(p, c, HasEndList([fragment] + after)); }
    CutEndsAlike(before, line, fragment, after);
    change := TailMergedExtends(p, q, c, HasEndList([fragment] + after), offset);
  }

  lemma {:induction false} TailNeedsCandidates(p: Playlist, c: seq<Segment>, finalized: bool)
    requires TailMerged(p, c, finalized).Some?
    ensures c != []
  {}

  /** The playlist was extended to the manifest's end, starting with the right number. */
  predicate Reaches(p: Playlist, q: Playlist, t: Playlist)
    requires q.sequence <= End(p) <= End(q) && |p.segments| <= |t.segments| && p.sequence == t.sequence
  {
    && End(t) == End(q)
    && (End(p) < End(q) ==> t.segments[|p.segments|].discontinuity == q.segments[End(p) - q.sequence].discontinuity)
  }

  /** What a cut must read as: behind the last segment with the held tail's payload it
      has as many segments as the manifest has beyond the held end, and the first of
      them is as many discontinuities away as in the manifest. */
  predicate CutAligned(last: Segment, c: seq<Segment>, missing: int, next: Option<nat>) {
    var m := LastMatch(c, last);
    && m.Some?
    && |c| - m.value - 1 == missing
    && (missing > 0 ==>
          next.Some? && c[m.value + 1].discontinuity - c[m.value].discontinuity == next.value - last.discontinuity)
  }

  function NumberAt(segments: seq<Segment>, i: int): Option<nat> {
    if 0 <= i < |segments| then Some(segments[i].discontinuity) else None
  }

  /** The same of a held playlist, a manifest and the segments a cut of it reads as. */
  predicate EndsRight(p: Playlist, q: Playlist, c: seq<Segment>) {
    p.segments != [] && CutAligned(LastSegment(p), c, End(q) - End(p), NumberAt(q.segments, End(p) - q.sequence))
  }

  /** An aligned cut is one whose merge reaches the manifest's end. */
  lemma {:induction false} AlignedReaches(p: Playlist, c: seq<Segment>, finalized: bool, end: nat, next: Option<nat>)
    requires TailMerged(p, c, finalized).Some? && (End(p) < end ==> next.Some?)
    ensures var t := TailMerged(p, c, finalized).value;
            && |p.segments| <= |t.segments| && t.sequence == p.sequence && p.segments != []
            && (CutAligned(LastSegment(p), c, end - End(p), next) <==>
                End(t) == end && (End(p) < end ==> t.segments[|p.segments|].discontinuity == next.value))
  {
    hide LastMatch, Measured, Shifted;
    var last := LastSegment(p);
    var m := LastMatch(c, last).value;
    var shift := last.discontinuity - c[m].discontinuity;
    var t := TailMerged(p, c, finalized).value;
    assert |t.segments| == |p.segments| + |c| - m - 1;
    if m + 1 < |c| {
      assert t.segments[|p.segments|] == Shifted(c[m..], shift)[1];
      assert c[m..][1] == c[m + 1];
    }
  }

  /** For every cut and every fragment: a successful tail merge gives the segments of
      the full merge if and only if the cut reads as aligned with the manifest. */
  lemma {:induction false} TailMergesIff(p: Playlist, before: seq<Line>, line: Line, fragment: Line, after: seq<Line>)
    requires Parse(before + [line] + after).Some? && MergeTail(p, [fragment] + after).Some?
    requires var q := Parse(before + [line] + after).value; p.sequence <= q.sequence <= End(p) <= End(q)
    ensures var q, t := Parse(before + [line] + after).value, MergeTail(p, [fragment] + after).value;
            && t.finalized == Merged(p, q).finalized
            && (t.segments == Merged(p, q).segments <==> EndsRight(p, q, TailCandidates([fragment] + after).value))
  {
    hide Parse, Extends, Merged, TailMerged, TailCandidates, CutAligned, HasEndList;
    var cut := [fragment] + after;
    var q, t := Parse(before + [line] + after).value, MergeTail(p, cut).value;
    var change := TailAppends(p, before, line, fragment, after);
    ExtendsIff(p, q, t, change);
    AlignedReaches(p, TailCandidates(cut).value, HasEndList(cut), End(q), NumberAt(q.segments, End(p) - q.sequence));
  }

  lemma {:induction false} ExtendsIff(p: Playlist, q: Playlist, t: Playlist, change: int)
    requires Extends(p, q, t, change) && p.sequence <= q.sequence <= End(p) <= End(q)
    ensures |p.segments| <= |t.segments| && p.sequence == t.sequence && t.finalized == Merged(p, q).finalized
    ensures t.segments == Merged(p, q).segments <==> Reaches(p, q, t)
  {
    var k := End(p) - q.sequence;
    if Reaches(p, q, t) {
      assert |Appended(p, t)| == |q.segments| - k;
      if k < |q.segments| {
        assert Appended(p, t)[0] == t.segments[|p.segments|];
        assert change == 0;
      }
      assert Appended(p, t) == q.segments[k..];
      assert t.segments == p.segments + Appended(p, t);
    }
    if t.segments == Merged(p, q).segments {
      assert Appended(p, t) == q.segments[k..];
      assert k < |q.segments| ==> t.segments[|p.segments|] == q.segments[k];
    }
  }

  // ----- A tail extends as the whole manifest would

  function LastSegment(p: Playlist): Segment
    requires p.segments != []
  {
    p.segments[|p.segments| - 1]
  }

  /** The last segment of `q` with the held tail's payload is the held tail itself. */
  predicate TailRecognised(p: Playlist, q: Playlist)
    requires p.segments != []
  {
    var m := LastMatch(q.segments, LastSegment(p));
    m.Some? && q.sequence + m.value + 1 == End(p)
  }

  lemma {:induction false} SuffixAt(c: seq<Segment>, s: seq<Segment>, offset: int, i: nat)
    requires SuffixOf(c, s, offset) && i < |c|
    ensures |c| <= |s| && SamePayload(c[i], s[|s| - |c| + i])
  {}

  /** A suffix matches where the whole does. */
  lemma {:induction false} LastMatchInSuffix(c: seq<Segment>, s: seq<Segment>, offset: int, t: Segment)
    requires SuffixOf(c, s, offset) && LastMatch(c, t).Some?
    ensures LastMatch(s, t) == Some(LastMatch(c, t).value + |s| - |c|)
  {
    hide LastMatch, SuffixOf;
    var o := LastMatch(c, t).value;
    SuffixAt(c, s, offset, o);
    var k := o + |s| - |c|;
    var m := LastMatch(s, t).value;
    if k < m {
      SuffixAt(c, s, offset, m - |s| + |c|);
    }
  }

  /** After a shared last segment, the shifted suffix is the manifest's own segments. */
  lemma {:induction false} ShiftedSuffix(c: seq<Segment>, s: seq<Segment>, offset: int, o: nat, last: Segment)
    requires SuffixOf(c, s, offset) && o < |c|
    requires s[|s| - |c| + o] == last && c[o].discontinuity <= last.discontinuity
    ensures forall i :: o <= i < |c| ==> c[i].discontinuity + offset >= 0
    ensures Shifted(c[o..], last.discontinuity - c[o].discontinuity) == s[|s| - |c| + o..]
  {
    var k := |s| - |c| + o;
    assert offset == last.discontinuity - c[o].discontinuity;
    forall i | 0 <= i < |c| - o ensures Shifted(c[o..], offset)[i] == s[k..][i] {
      assert c[o..][i] == c[o + i];
    }
  }

  lemma {:induction false} TailMergedIs(p: Playlist, q: Playlist, c: seq<Segment>, finalized: bool, offset: int)
    requires p.segments != [] && Joins(p, q) && p.sequence <= q.sequence
    requires SuffixOf(c, q.segments, offset)
    requires TailMerged(p, c, finalized).Some?
    ensures TailMerged(p, c, finalized).value.segments == Merged(p, q).segments <==> TailRecognised(p, q)
    ensures |TailMerged(p, c, finalized).value.segments| <= |p.segments| + |c|
    ensures TailMerged(p, c, finalized).value.finalized == finalized
  {
    hide SuffixOf, Shifted, Measured, LastMatch, Continues;
    var last := LastSegment(p);
    var o := LastMatch(c, last).value;
    LastMatchInSuffix(c, q.segments, offset, last);
    var k := o + |q.segments| - |c|;
    if TailRecognised(p, q) {
      assert Overlaps(p, q, End(p) - 1);
      assert q.segments[k] == last;
      ShiftedSuffix(c, q.segments, offset, o, last);
      assert q.segments[k..][1..] == q.segments[k + 1..];
    } else {
      assert |TailMerged(p, c, finalized).value.segments| == |p.segments| + |c| - o - 1;
    }
  }

  lemma {:induction false} EndListInSuffix(a: seq<Line>, b: seq<Line>)
    requires LastMeaningful(b).Some?
    ensures LastMeaningful(a + b) == LastMeaningful(b)
    decreases |b|
  {
    if b[|b| - 1] == Blank {
      assert (a + b)[..|a + b| - 1] == a + b[..|b| - 1];
      EndListInSuffix(a, b[..|b| - 1]);
    }
  }

  /** Only lines that say something give segments. */
  lemma {:induction false} SegmentsNeedLines(r: Reading, lines: seq<Line>)
    requires ReadLines(r, lines).Some?
    ensures ReadLines(r, lines).value.segments == r.segments || LastMeaningful(lines).Some?
    decreases |lines|
  {
    if lines != [] {
      SegmentsNeedLines(ReadLine(r, lines[0]).value, lines[1..]);
      if LastMeaningful(lines[1..]).Some? {
        assert [lines[0]] + lines[1..] == lines;
        EndListInSuffix([lines[0]], lines[1..]);
      } else if lines[0] != Blank {
        FirstCounts(lines);
      }
    }
  }

  lemma {:induction false} FirstCounts(lines: seq<Line>)
    requires lines != [] && lines[0] != Blank
    ensures LastMeaningful(lines).Some?
    decreases |lines|
  {
    if |lines| > 1 && lines[|lines| - 1] == Blank {
      FirstCounts(lines[..|lines| - 1]);
    }
  }

  /** A cut that gives segments ends as the manifest ends. */
  lemma {:induction false} CutEndsAlike(before: seq<Line>, line: Line, fragment: Line, after: seq<Line>)
    requires TailCandidates([fragment] + after).Some? && TailCandidates([fragment] + after).value != []
    ensures HasEndList([fragment] + after) == HasEndList(before + [line] + after)
  {
    hide LastMeaningful;
    assert ([fragment] + after)[1..] == after;
    var whole := ParseSegments([fragment] + after, 0);
    if whole.Some? && whole.value != [] {
      SegmentsNeedLines(ReadLine(Unread(0), fragment).value, after);
    } else {
      SegmentsNeedLines(Unread(0), after);
    }
    EndListInSuffix([fragment], after);
    EndListInSuffix(before + [line], after);
  }

  /** A tail cut that extends the held playlist extends it exactly as the whole
      manifest does, if and only if the manifest's last segment with the held
      tail's payload is the held tail; the end flag is the same in any case. */
  lemma {:induction false} TailMergesAlike(p: Playlist, before: seq<Line>, line: Line, fragment: Line, after: seq<Line>)
    requires Parse(before + [line] + after).Some?
    requires fragment.ExtInf? ==> fragment == line
    requires p.segments != [] && p.sequence <= Parse(before + [line] + after).value.sequence
    requires Joins(p, Parse(before + [line] + after).value)
    requires MergeTail(p, [fragment] + after).Some?
    ensures var q, t := Parse(before + [line] + after).value, MergeTail(p, [fragment] + after).value;
            && (t.segments == Merged(p, q).segments <==> TailRecognised(p, q))
            && t.finalized == Merged(p, q).finalized == q.finalized
            && t.sequence == Merged(p, q).sequence
            && t.discontinuity == Merged(p, q).discontinuity
  {
    hide ParseSegments, TailCandidates, HasEndList, SuffixOf, Joins, TailRecognised, ReadTags, Measured;
    var lines := before + [line] + after;
    var q := Parse(lines).value;
    var c := TailCandidates([fragment] + after).value;
    var offset := TailIsSuffix(before, line, fragment, after, q.discontinuity);
    TailMergedIs(p, q, c, HasEndList([fragment] + after), offset);
    assert c != [];
    CutEndsAlike(before, line, fragment, after);
    JoinsMeans(p, q);
  }

  lemma {:induction false} JoinsMeans(p: Playlist, q: Playlist)
    requires Joins(p, q)
    ensures q.sequence <= End(p) <= End(q)
  {}

  ghost predicate Distinct(segments: seq<Segment>) {
    forall i, j :: 0 <= i < j < |segments| ==> !SamePayload(segments[i], segments[j])
  }

  /** Distinct payloads are enough, as soon as the manifest still shows the held tail. */
  lemma {:induction false} DistinctRecognised(p: Playlist, q: Playlist)
    requires p.segments != [] && Joins(p, q) && p.sequence <= q.sequence < End(p) && Distinct(q.segments)
    ensures TailRecognised(p, q)
  {
    assert Overlaps(p, q, End(p) - 1);
    assert SamePayload(q.segments[End(p) - 1 - q.sequence], LastSegment(p));
  }

  // ----- Why the fragment and the held tail matter

  ghost predicate Spelled(segments: seq<Segment>) {
    forall i :: 0 <= i < |segments| ==>
      IsLowerReference(segments[i].reference) && segments[i].duration > 0 && !segments[i].gap && segments[i].discontinuity == 0
  }

  /** The lines of segments without gap or discontinuity. */
  function Spelling(segments: seq<Segment>): (r: seq<Line>)
    ensures |r| == 2 * |segments|
  {
    if segments == [] then []
    else [ExtInf(Some(segments[0].duration)), Uri(segments[0].reference)] + Spelling(segments[1..])
  }

  lemma {:induction false} SpellingReads(done: seq<Segment>, segments: seq<Segment>)
    requires Spelled(segments)
    ensures ReadLines(Reading(done, None, false, false, 0), Spelling(segments)) ==
            Some(Reading(done + segments, None, false, false, 0))
    decreases |segments|
  {
    hide ReadLine;
    if segments == [] {
      assert done + segments == done;
    } else {
      var s := segments[0];
      var pair := [ExtInf(Some(s.duration)), Uri(s.reference)];
      PairReads(done, s);
      ReadLinesSplit(Reading(done, None, false, false, 0), pair, Spelling(segments[1..]));
      SpellingReads(done + [s], segments[1..]);
      assert done + [s] + segments[1..] == done + segments;
    }
  }

  lemma {:induction false} PairReads(done: seq<Segment>, s: Segment)
    requires IsLowerReference(s.reference) && s.duration > 0 && !s.gap && s.discontinuity == 0
    ensures ReadLines(Reading(done, None, false, false, 0), [ExtInf(Some(s.duration)), Uri(s.reference)]) ==
            Some(Reading(done + [s], None, false, false, 0))
  {
    hide SwarmReference, IsHexReference, Lower;
    var r := Reading(done, None, false, false, 0);
    HexNamesItself(s.reference);
    ReadOne(r, ExtInf(Some(s.duration)));
    ReadOne(r.(duration := Some(s.duration)), Uri(s.reference));
    assert [ExtInf(Some(s.duration)), Uri(s.reference)] == [ExtInf(Some(s.duration))] + [Uri(s.reference)];
    ReadLinesSplit(r, [ExtInf(Some(s.duration))], [Uri(s.reference)]);
  }

  lemma {:induction false} SpellingParses(segments: seq<Segment>)
    requires Spelled(segments)
    ensures ParseSegments(Spelling(segments), 0) == Some(segments)
  {
    SpellingReads([], segments);
    assert [] + segments == segments;
  }

  /** A tail merge of a spelled cut appends what follows the last match. */
  lemma {:induction false} SpelledMerge(p: Playlist, cut: seq<Segment>, k: nat)
    requires Spelled(cut) && cut != [] && p.segments != [] && LastSegment(p).discontinuity == 0
    requires LastMatch(cut, LastSegment(p)) == Some(k)
    ensures MergeTail(p, Spelling(cut)).Some?
    ensures MergeTail(p, Spelling(cut)).value.segments == p.segments + cut[k + 1..]
  {
    hide ParseSegments, HasEndList, LastMatch, Measured;
    SpellingParses(cut);
    assert Shifted(cut[k..], 0) == cut[k..];
    assert cut[k..][1..] == cut[k + 1..];
  }

  // The text of a duration line, as far as the reader looks at it.

  const DurationTag := "#EXTINF:"

  function UpToComma(s: string): (r: string)
    ensures r <= s
  {
    if s == "" || s[0] == ',' then "" else [s[0]] + UpToComma(s[1..])
  }

  /** The number a duration line gives, as text. */
  function DurationText(line: string): Option<string> {
    if DurationTag <= line then Some(UpToComma(line[|DurationTag|..])) else None
  }

  lemma {:induction false} UpToFirstComma(a: string, rest: string)
    requires ',' !in a
    ensures UpToComma(a + "," + rest) == a
    decreases |a|
  {
    var s := a + "," + rest;
    if a == "" {
      assert s[0] == ',';
    } else {
      assert s[0] == a[0] && s[1..] == a[1..] + "," + rest;
      UpToFirstComma(a[1..], rest);
    }
  }

  /** Cut behind its first comma, a duration line whose title starts like one reads as
      that other duration. */
  lemma {:induction false} TitleReadsAsDuration(a: string, b: string, rest: string)
    requires ',' !in a && ',' !in b
    ensures var line := DurationTag + a + "," + (DurationTag + b + "," + rest);
            && DurationText(line) == Some(a)
            && DurationText(line[|DurationTag| + |a| + 1..]) == Some(b)
  {
    hide UpToComma;
    var title := DurationTag + b + "," + rest;
    var line := DurationTag + a + "," + title;
    assert line[|DurationTag|..] == a + "," + title;
    UpToFirstComma(a, title);
    assert line[|DurationTag| + |a| + 1..] == title;
    assert title[|DurationTag|..] == b + "," + rest;
    UpToFirstComma(b, rest);
  }

  /** A title that itself reads as a duration makes a cut pass for another
      segment: the tail then loses the segments in between, although the payloads
      are distinct and the manifest shows the held tail. */
  lemma {:induction false} FragmentMisleads(a: string, b: string)
    requires IsLowerReference(a) && IsLowerReference(b) && a != b
    ensures var first, second, third := Segment(a, 2, false, 0), Segment(a, 6, false, 0), Segment(b, 3, false, 0);
            var manifest := Playlist(0, 0, 1, [first, second, third], false);
            var held := manifest.(segments := [first]);
            // The manifest's second duration line is cut so that it reads as the first.
            && Spelling(manifest.segments)[2] == ExtInf(Some(6))
            && [ExtInf(Some(2))] + Spelling(manifest.segments)[3..] == Spelling([first, third])
            && ParseSegments(Spelling(manifest.segments), 0) == Some(manifest.segments)
            && Joins(held, manifest) && Distinct(manifest.segments) && TailRecognised(held, manifest)
            && MergeTail(held, Spelling([first, third])).Some?
            && MergeTail(held, Spelling([first, third])).value.segments == [first, third]
            && Merged(held, manifest).segments == [first, second, third]
  {
    hide ParseSegments, MergeTail, LastMatch, TailRecognised;
    var first, second, third := Segment(a, 2, false, 0), Segment(a, 6, false, 0), Segment(b, 3, false, 0);
    var manifest := Playlist(0, 0, 1, [first, second, third], false);
    var held := manifest.(segments := [first]);
    SpellingParses(manifest.segments);
    SpellingOfThree(first, second, third);
    SpellingOfTwo(first, third);
    assert Overlaps(held, manifest, 0);
    DistinctRecognised(held, manifest);
    var cut := [first, third];
    assert SamePayload(cut[0], first) && !SamePayload(cut[1], first);
    SpelledMerge(held, cut, 0);
    assert [first] + cut[1..] == cut;
  }

  lemma {:induction false} SpellingOfTwo(a: Segment, b: Segment)
    ensures Spelling([a, b]) ==
            [ExtInf(Some(a.duration)), Uri(a.reference), ExtInf(Some(b.duration)), Uri(b.reference)]
  {
    assert [a, b][1..] == [b] && [b][1..] == [];
    assert Spelling([b]) == [ExtInf(Some(b.duration)), Uri(b.reference)];
  }

  lemma {:induction false} SpellingOfThree(a: Segment, b: Segment, c: Segment)
    ensures Spelling([a, b, c]) ==
            [ExtInf(Some(a.duration)), Uri(a.reference), ExtInf(Some(b.duration)), Uri(b.reference),
             ExtInf(Some(c.duration)), Uri(c.reference)]
  {
    assert [a, b, c][1..] == [b, c];
    SpellingOfTwo(b, c);
  }

  /** A repeated payload misleads an honest cut as well: the held segment is found at
      its repetition and what lies between is lost. */
  lemma {:induction false} RepeatMisleads(x: string, y: string, z: string)
    requires IsLowerReference(x) && IsLowerReference(y) && IsLowerReference(z) && x != y && x != z
    ensures var sx, sy, sz := Segment(x, 2, false, 0), Segment(y, 2, false, 0), Segment(z, 2, false, 0);
            var manifest := Playlist(0, 0, 1, [sx, sy, sx, sz], false);
            var held := manifest.(segments := [sx]);
            && ParseSegments(Spelling(manifest.segments), 0) == Some(manifest.segments)
            && Joins(held, manifest)
            && MergeTail(held, Spelling(manifest.segments)).Some?
            && MergeTail(held, Spelling(manifest.segments)).value.segments == [sx, sz]
            && Merged(held, manifest).segments == [sx, sy, sx, sz]
  {
    hide ParseSegments, MergeTail, LastMatch;
    var sx, sy, sz := Segment(x, 2, false, 0), Segment(y, 2, false, 0), Segment(z, 2, false, 0);
    var manifest := Playlist(0, 0, 1, [sx, sy, sx, sz], false);
    var held := manifest.(segments := [sx]);
    var cut := manifest.segments;
    SpellingParses(cut);
    assert SamePayload(cut[2], sx) && !SamePayload(cut[3], sx);
    SpelledMerge(held, cut, 2);
    assert [sx] + cut[3..] == [sx, sz];
  }

  /** A tail merge looks at the held tail only, so it can succeed where the full merge
      refuses a manifest that disagrees about an earlier segment. */
  lemma {:induction false} TailAcceptsMore(x: string, y: string, z: string, w: string)
    requires IsLowerReference(x) && IsLowerReference(y) && IsLowerReference(z) && IsLowerReference(w)
    requires x != y && y != z && z != w && y != w
    ensures var sx, sy, sz, sw := Segment(x, 2, false, 0), Segment(y, 2, false, 0), Segment(z, 2, false, 0), Segment(w, 2, false, 0);
            var manifest := Playlist(0, 0, 1, [sy, sz, sw], false);
            var held := manifest.(segments := [sx, sz]);
            && ParseSegments(Spelling(manifest.segments), 0) == Some(manifest.segments)
            && !Joins(held, manifest)
            && MergeTail(held, Spelling(manifest.segments)).Some?
            && MergeTail(held, Spelling(manifest.segments)).value.segments == [sx, sz, sw]
  {
    hide ParseSegments, MergeTail, LastMatch;
    var sx, sy, sz, sw := Segment(x, 2, false, 0), Segment(y, 2, false, 0), Segment(z, 2, false, 0), Segment(w, 2, false, 0);
    var manifest := Playlist(0, 0, 1, [sy, sz, sw], false);
    var held := manifest.(segments := [sx, sz]);
    var cut := manifest.segments;
    SpellingParses(cut);
    assert SamePayload(cut[1], sz) && !SamePayload(cut[2], sz);
    SpelledMerge(held, cut, 1);
    assert [sx, sz] + cut[2..] == [sx, sz, sw];
    assert Overlaps(held, manifest, 0);
  }
}
