/** Media playlists: reading them line by line, extending a held playlist by a
    newer manifest or by the tail of one, and writing them back.

    A line stands for its text once trimmed and classified; a value is absent
    when the source would fail to read it. URIs keep their text. Durations are in
    microseconds. */
module Playlists {
  import opened Options
  import opened References

  datatype Line =
    | Header
    | MediaSequence(number: Option<Word>)
    | DiscontinuitySequence(number: Option<Word>)
    | TargetDuration(number: Option<Word>)
    | ExtInf(value: Option<nat>)
    | Gap
    | Discontinuity
    | EndList
    | Version(version: nat)
    | PlaylistType(vod: bool)
    | StartOffset(time: nat, precise: bool)
    | OtherTag
    | Blank
    | Uri(text: string)

  datatype Segment = Segment(reference: string, duration: nat, gap: bool, discontinuity: nat)

  datatype Playlist = Playlist(
    sequence: nat, discontinuity: nat, target: nat, segments: seq<Segment>, finalized: bool)

  /** The sequence number after the last segment. */
  function End(p: Playlist): nat {
    p.sequence + |p.segments|
  }

  /** Seconds, rounded half up and saturating at 64 bits. */
  function Rounded(duration: nat): (seconds: nat)
    ensures seconds < WordSize
  {
    Min((duration + 500_000) / 1_000_000, WordSize - 1)
  }

  predicate SamePayload(a: Segment, b: Segment) {
    a.reference == b.reference && a.duration == b.duration && a.gap == b.gap
  }

  // ----- Reading segment lines

  /** What the line reader holds between two lines. */
  datatype Reading = Reading(
    segments: seq<Segment>, duration: Option<nat>, gap: bool, broken: bool, discontinuity: nat)

  function ReadLine(r: Reading, line: Line): Option<Reading> {
    match line
    case ExtInf(value) =>
      if r.duration.Some? || value.None? || value.value == 0 then None
      else Some(r.(duration := value))
    case Gap => if r.duration.None? then None else Some(r.(gap := true))
    case Discontinuity =>
      if r.broken || r.discontinuity + 1 >= WordSize then None
      else Some(r.(broken := true, discontinuity := r.discontinuity + 1))
    case Uri(text) =>
      var reference := SwarmReference(text);
      if r.duration.None? then Some(r)
      else if reference.None? then None
      else
        var segment := Segment(Lower(reference.value), r.duration.value, r.gap, r.discontinuity);
        Some(r.(segments := r.segments + [segment], duration := None, gap := false, broken := false))
    case _ => Some(r)
  }

  function ReadLines(r: Reading, lines: seq<Line>): Option<Reading>
    decreases |lines|
  {
    if lines == [] then Some(r)
    else
      var next := ReadLine(r, lines[0]);
      if next.None? then None else ReadLines(next.value, lines[1..])
  }

  lemma {:induction false} ReadLinesSplit(r: Reading, a: seq<Line>, b: seq<Line>)
    ensures ReadLines(r, a + b) ==
            if ReadLines(r, a).None? then None else ReadLines(ReadLines(r, a).value, b)
    decreases |a|
  {
    if a == [] {
      assert a + b == b;
    } else {
      assert (a + b)[1..] == a[1..] + b;
      var next := ReadLine(r, a[0]);
      if next.Some? {
        ReadLinesSplit(next.value, a[1..], b);
      }
    }
  }

  lemma {:induction false} ReadOne(r: Reading, line: Line)
    ensures ReadLines(r, [line]) == ReadLine(r, line)
  {
    hide ReadLine;
  }

  function Unread(discontinuity: nat): Reading {
    Reading([], None, false, false, discontinuity)
  }

  function ParseSegments(lines: seq<Line>, discontinuity: nat): Option<seq<Segment>> {
    var r := ReadLines(Unread(discontinuity), lines);
    if r.None? || r.value.duration.Some? || r.value.gap then None else Some(r.value.segments)
  }

  method ParseSegmentLines(lines: seq<Line>, start: nat) returns (r: Option<seq<Segment>>)
    requires start < WordSize
    ensures r == ParseSegments(lines, start)
  {
    var segments: seq<Segment> := [];
    var duration: Option<nat> := None;
    var gap, broken := false, false;
    var discontinuity := start;
    for i := 0 to |lines|
      invariant ReadLines(Unread(start), lines) ==
                ReadLines(Reading(segments, duration, gap, broken, discontinuity), lines[i..])
    {
      assert lines[i..][1..] == lines[i + 1..];
      match lines[i]
      case ExtInf(value) =>
        if duration.Some? || value.None? || value.value == 0 {
          return None;
        }
        duration := value;
      case Gap =>
        if duration.None? {
          return None;
        }
        gap := true;
      case Discontinuity =>
        if broken || discontinuity + 1 >= WordSize {
          return None;
        }
        broken := true;
        discontinuity := discontinuity + 1;
      case Uri(text) =>
        if duration.Some? {
          var reference := SwarmReference(text);
          if reference.None? {
            return None;
          }
          segments := segments + [Segment(Lower(reference.value), duration.value, gap, discontinuity)];
          duration, gap, broken := None, false, false;
        }
      case _ =>
    }
    if duration.Some? || gap {
      return None;
    }
    return Some(segments);
  }

  // ----- Reading whole manifests

  function LastMeaningful(lines: seq<Line>): Option<Line> {
    if lines == [] then None
    else if lines[|lines| - 1] != Blank then Some(lines[|lines| - 1])
    else LastMeaningful(lines[..|lines| - 1])
  }

  predicate HasEndList(lines: seq<Line>) {
    LastMeaningful(lines) == Some(EndList)
  }

  function FirstMeaningful(lines: seq<Line>): Option<Line> {
    if lines == [] then None
    else if lines[0] != Blank then Some(lines[0])
    else FirstMeaningful(lines[1..])
  }

  /** The values of the three tags a manifest may carry once each. */
  datatype Tags = Tags(sequence: Option<nat>, discontinuity: Option<nat>, target: Option<nat>)

  function ReadTag(t: Tags, line: Line): Option<Tags> {
    match line
    case MediaSequence(value) =>
      if value.None? || t.sequence.Some? then None else Some(t.(sequence := value))
    case DiscontinuitySequence(value) =>
      if value.None? || t.discontinuity.Some? then None else Some(t.(discontinuity := value))
    case TargetDuration(value) =>
      if value.None? || t.target.Some? then None else Some(t.(target := Some(Max(value.value, 1))))
    case _ => Some(t)
  }

  function ReadTags(t: Tags, lines: seq<Line>): Option<Tags>
    decreases |lines|
  {
    if lines == [] then Some(t)
    else
      var next := ReadTag(t, lines[0]);
      if next.None? then None else ReadTags(next.value, lines[1..])
  }

  function Or(value: Option<nat>, default: nat): nat {
    if value.Some? then value.value else default
  }

  /** The longest segment in whole seconds, and at least one. */
  function Measured(segments: seq<Segment>): (m: nat)
    ensures m >= 1
  {
    if segments == [] then 1
    else Max(Measured(segments[..|segments| - 1]), Rounded(segments[|segments| - 1].duration))
  }

  function Parse(lines: seq<Line>): Option<Playlist> {
    var tags := ReadTags(Tags(None, None, None), lines);
    if FirstMeaningful(lines) != Some(Header) || tags.None? then None
    else
      var discontinuity := Or(tags.value.discontinuity, 0);
      var segments := ParseSegments(lines, discontinuity);
      if segments.None? || segments.value == [] then None
      else
        var measured := Measured(segments.value);
        Some(Playlist(Or(tags.value.sequence, 0), discontinuity, Max(Or(tags.value.target, measured), measured),
                      segments.value, HasEndList(lines)))
  }

  method ParseManifest(lines: seq<Line>) returns (r: Option<Playlist>)
    ensures r == Parse(lines)
  {
    if FirstMeaningful(lines) != Some(Header) {
      return None;
    }
    var sequence: Option<nat>, discontinuity: Option<nat>, target: Option<nat> := None, None, None;
    for i := 0 to |lines|
      invariant ReadTags(Tags(None, None, None), lines) == ReadTags(Tags(sequence, discontinuity, target), lines[i..])
      invariant discontinuity.Some? ==> discontinuity.value < WordSize
    {
      assert lines[i..][1..] == lines[i + 1..];
      match lines[i]
      case MediaSequence(number) =>
        if number.None? || sequence.Some? {
          return None;
        }
        sequence := number;
      case DiscontinuitySequence(number) =>
        if number.None? || discontinuity.Some? {
          return None;
        }
        discontinuity := number;
      case TargetDuration(number) =>
        if number.None? || target.Some? {
          return None;
        }
        target := Some(Max(number.value, 1));
      case _ =>
    }
    var first := Or(discontinuity, 0);
    var segments := ParseSegmentLines(lines, first);
    if segments.None? || segments.value == [] {
      return None;
    }
    var measured := Measured(segments.value);
    r := Some(Playlist(Or(sequence, 0), first, Max(Or(target, measured), measured), segments.value, HasEndList(lines)));
  }

  // ----- Extending a held playlist

  /** The two playlists say the same of every sequence number both hold. */
  ghost predicate Agree(p: Playlist, q: Playlist) {
    forall n: nat {:trigger Overlaps(p, q, n)} :: Overlaps(p, q, n) ==>
      p.segments[n - p.sequence] == q.segments[n - q.sequence]
  }

  ghost predicate Overlaps(p: Playlist, q: Playlist, n: nat) {
    p.sequence <= n < End(p) && q.sequence <= n < End(q)
  }

  /** Whether the first appended segment continues the held discontinuity number. */
  predicate Continues(p: Playlist, q: Playlist) {
    End(p) == End(q) ||
    ( && q.sequence <= End(p) < End(q)
      && p.segments != []
      && var previous, next := p.segments[|p.segments| - 1].discontinuity, q.segments[End(p) - q.sequence].discontinuity;
         previous <= next <= previous + 1 < WordSize)
  }

  ghost predicate Joins(p: Playlist, q: Playlist) {
    && End(p) < WordSize && End(q) < WordSize
    && q.sequence <= End(p) <= End(q)
    && Agree(p, q)
    && Continues(p, q)
  }

  ghost function Merged(p: Playlist, q: Playlist): Playlist
    requires q.sequence <= End(p) <= End(q)
  {
    var target := Max(p.target, q.target);
    if q.sequence < p.sequence then q.(target := target)
    else p.(segments := p.segments + q.segments[End(p) - q.sequence..], finalized := q.finalized, target := target)
  }

  ghost predicate Holds(p: Playlist, n: nat, s: Segment) {
    p.sequence <= n < End(p) && p.segments[n - p.sequence] == s
  }

  /** A merged playlist starts where the earlier one starts and ends where the newer one
      ends; what it holds of each number is what either of the two holds. */
  lemma {:induction false} MergedHolds(p: Playlist, q: Playlist, n: nat, s: Segment)
    requires q.sequence <= End(p) <= End(q) && Agree(p, q)
    ensures var m := Merged(p, q);
            && m.sequence == Min(p.sequence, q.sequence) && End(m) == End(q)
            && m.finalized == q.finalized && m.target == Max(p.target, q.target)
            && m.discontinuity == (if q.sequence < p.sequence then q.discontinuity else p.discontinuity)
            && (Holds(m, n, s) <==> Holds(p, n, s) || Holds(q, n, s))
  {
    assert Overlaps(p, q, n) ==> p.segments[n - p.sequence] == q.segments[n - q.sequence];
  }

  // ----- Extending by a tail

  function LastMatch(c: seq<Segment>, s: Segment): (r: Option<nat>)
    ensures r.Some? ==> r.value < |c| && SamePayload(c[r.value], s)
    ensures r.Some? ==> forall i :: r.value < i < |c| ==> !SamePayload(c[i], s)
    ensures r.None? ==> forall i :: 0 <= i < |c| ==> !SamePayload(c[i], s)
  {
    if c == [] then None
    else if SamePayload(c[|c| - 1], s) then Some(|c| - 1)
    else LastMatch(c[..|c| - 1], s)
  }

  function Shifted(c: seq<Segment>, offset: int): (r: seq<Segment>)
    requires forall i :: 0 <= i < |c| ==> c[i].discontinuity + offset >= 0
    ensures |r| == |c|
    ensures forall i :: 0 <= i < |c| ==> r[i] == c[i].(discontinuity := c[i].discontinuity + offset)
  {
    seq(|c|, i requires 0 <= i < |c| => c[i].(discontinuity := c[i].discontinuity + offset))
  }

  predicate Fit(c: seq<Segment>) {
    forall i :: 0 <= i < |c| ==> c[i].discontinuity < WordSize
  }

  function TailMerged(p: Playlist, c: seq<Segment>, finalized: bool): Option<Playlist> {
    if p.segments == [] then None
    else
      var last := p.segments[|p.segments| - 1];
      var overlap := LastMatch(c, last);
      if overlap.None? || c[overlap.value].discontinuity > last.discontinuity then None
      else
        var shifted := Shifted(c[overlap.value..], last.discontinuity - c[overlap.value].discontinuity);
        if !Fit(shifted) then None
        else
          Some(p.(segments := p.segments + shifted[1..], finalized := finalized,
                  target := if |shifted| == 1 then p.target else Max(p.target, Measured(shifted[1..]))))
  }

  /** The segments a cut of a manifest's text carries: the first line may be a
      fragment, so it is dropped when reading from it gives nothing. */
  function TailCandidates(lines: seq<Line>): Option<seq<Segment>> {
    var whole := ParseSegments(lines, 0);
    if whole.Some? && whole.value != [] then whole
    else if lines == [] then None
    else ParseSegments(lines[1..], 0)
  }

  function MergeTail(p: Playlist, lines: seq<Line>): Option<Playlist> {
    var c := TailCandidates(lines);
    if c.None? then None else TailMerged(p, c.value, HasEndList(lines))
  }

  // ----- The held playlist

  class HlsPlaylist {
    var sequence: nat
    var discontinuity: nat
    var target: nat
    var segments: seq<Segment>
    var finalized: bool

    function Value(): Playlist
      reads this
    {
      Playlist(sequence, discontinuity, target, segments, finalized)
    }

    constructor (p: Playlist)
      ensures Value() == p
    {
      sequence, discontinuity, target, segments, finalized :=
        p.sequence, p.discontinuity, p.target, p.segments, p.finalized;
    }

    method Replace(p: Playlist)
      modifies this
      ensures Value() == p
    {
      sequence, discontinuity, target, segments, finalized :=
        p.sequence, p.discontinuity, p.target, p.segments, p.finalized;
    }

    /** How many segments the candidate appends and from where, or nothing when
        it does not join. */
    method MergeExtension(candidate: Playlist) returns (r: Option<(nat, nat)>)
      ensures r.Some? <==> Joins(Value(), candidate)
      ensures r.Some? ==> r.value.0 == End(candidate) - End(Value())
      ensures r.Some? && r.value.0 != 0 ==> r.value.1 == End(Value()) - candidate.sequence
    {
      var currentEnd, candidateEnd := sequence + |segments|, candidate.sequence + |candidate.segments|;
      if currentEnd >= WordSize || candidateEnd >= WordSize || candidate.sequence > currentEnd || candidateEnd < currentEnd {
        return None;
      }
      var n := Max(sequence, candidate.sequence);
      var overlapEnd := Min(currentEnd, candidateEnd);
      while n < overlapEnd
        invariant Max(sequence, candidate.sequence) <= n
        invariant forall k: nat {:trigger Overlaps(Value(), candidate, k)} :: Overlaps(Value(), candidate, k) && k < n ==>
                    segments[k - sequence] == candidate.segments[k - candidate.sequence]
      {
        if segments[n - sequence] != candidate.segments[n - candidate.sequence] {
          assert Overlaps(Value(), candidate, n);
          return None;
        }
        n := n + 1;
      }
      assert Agree(Value(), candidate);
      var appended := candidateEnd - currentEnd;
      if appended == 0 {
        return Some((0, 0));
      }
      var first := currentEnd - candidate.sequence;
      if segments == [] {
        return None;
      }
      var previous, next := segments[|segments| - 1].discontinuity, candidate.segments[first].discontinuity;
      if next < previous || previous + 1 >= WordSize || next > previous + 1 {
        return None;
      }
      return Some((appended, first));
    }

    method MergePlaylist(candidate: Playlist) returns (appended: Option<nat>)
      modifies this
      ensures appended.Some? <==> Joins(old(Value()), candidate)
      ensures appended.None? ==> Value() == old(Value())
      ensures appended.Some? ==> Value() == Merged(old(Value()), candidate)
      ensures appended.Some? ==> appended.value == End(Value()) - old(End(Value()))
    {
      var extension := MergeExtension(candidate);
      if extension.None? {
        return None;
      }
      var (count, first) := extension.value;
      if candidate.sequence < sequence {
        sequence, discontinuity, segments := candidate.sequence, candidate.discontinuity, candidate.segments;
      } else if count != 0 {
        segments := segments + candidate.segments[first..];
      }
      finalized := candidate.finalized;
      target := Max(target, candidate.target);
      return Some(count);
    }

    method MergeSegments(candidates: seq<Segment>, ended: bool) returns (appended: Option<nat>)
      modifies this
      ensures appended.Some? <==> TailMerged(old(Value()), candidates, ended).Some?
      ensures appended.None? ==> Value() == old(Value())
      ensures appended.Some? ==> Some(Value()) == TailMerged(old(Value()), candidates, ended)
      ensures appended.Some? ==> appended.value == End(Value()) - old(End(Value()))
    {
      hide Measured, LastMatch, Shifted;
      if segments == [] {
        return None;
      }
      var last := segments[|segments| - 1];
      var found := LastMatch(candidates, last);
      if found.None? || candidates[found.value].discontinuity > last.discontinuity {
        return None;
      }
      var overlap := found.value;
      var offset := last.discontinuity - candidates[overlap].discontinuity;
      var shifted := Shifted(candidates[overlap..], offset);
      if !Fit(shifted) {
        return None;
      }
      Extend(shifted[1..]);
      finalized := ended;
      return Some(|candidates| - overlap - 1);
    }

    method Extend(more: seq<Segment>)
      modifies this`segments, this`target
      ensures segments == old(segments) + more
      ensures target == if more == [] then old(target) else Max(old(target), Measured(more))
    {
      hide Rounded;
      for i := 0 to |more|
        invariant segments == old(segments) + more[..i]
        invariant target == if i == 0 then old(target) else Max(old(target), Measured(more[..i]))
      {
        assert more[..i + 1][..i] == more[..i];
        target := Max(Max(target, Rounded(more[i].duration)), 1);
        segments := segments + [more[i]];
      }
      assert more[..|more|] == more;
    }

    method MergeTailLines(lines: seq<Line>) returns (appended: Option<nat>)
      modifies this
      ensures appended.Some? <==> MergeTail(old(Value()), lines).Some?
      ensures appended.None? ==> Value() == old(Value())
      ensures appended.Some? ==> Some(Value()) == MergeTail(old(Value()), lines)
      ensures appended.Some? ==> appended.value == End(Value()) - old(End(Value()))
    {
      hide TailMerged;
      var candidates := ParseSegmentLines(lines, 0);
      if candidates.None? || candidates.value == [] {
        if lines == [] {
          return None;
        }
        candidates := ParseSegmentLines(lines[1..], 0);
        if candidates.None? {
          return None;
        }
      }
      appended := MergeSegments(candidates.value, HasEndList(lines));
    }

    method MarkGap(number: nat, reference: string) returns (marked: bool)
      modifies this
      ensures (Value(), marked) == GapMarked(old(Value()), number, reference)
    {
      if number < sequence || number - sequence >= |segments| || segments[number - sequence].reference != reference {
        return false;
      }
      segments := segments[number - sequence := segments[number - sequence].(gap := true)];
      return true;
    }
  }

  function GapMarked(p: Playlist, number: nat, reference: string): (Playlist, bool) {
    if p.sequence <= number < End(p) && p.segments[number - p.sequence].reference == reference then
      (p.(segments := p.segments[number - p.sequence := p.segments[number - p.sequence].(gap := true)]), true)
    else (p, false)
  }
}
