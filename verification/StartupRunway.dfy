/** Where playback of a live stream starts: a gap-free runway of at least eight
    seconds around the newest playable segment. Times are in microseconds. */
module StartupRunway {
  import opened Options
  import opened Playlists

  const Runway := 8_000_000

  datatype Plan = Plan(
    bootstrapPosition: nat, codecBootstrap: bool, playPosition: nat, runwayEnd: nat, duration: nat)

  /** The time at which segment `k` starts. */
  function Elapsed(s: seq<Segment>, k: nat): nat
    requires k <= |s|
  {
    if k == 0 then 0 else Elapsed(s, k - 1) + s[k - 1].duration
  }

  predicate Timed(s: seq<Segment>) {
    forall i :: 0 <= i < |s| ==> s[i].duration > 0
  }

  lemma {:induction false} ElapsedGrows(s: seq<Segment>, i: nat, j: nat)
    requires i <= j <= |s|
    ensures Elapsed(s, i) <= Elapsed(s, j)
    ensures i < j && Timed(s) ==> Elapsed(s, i) < Elapsed(s, j)
    decreases j
  {
    if i < j {
      ElapsedGrows(s, i, j - 1);
    }
  }

  /** No segment from `low` up to and including `high` is a gap. */
  predicate Playable(s: seq<Segment>, low: nat, high: nat) {
    low <= high < |s| && forall i :: low <= i <= high ==> !s[i].gap
  }

  /** The runway cannot be extended: a gap or an end lies on both sides. */
  predicate Maximal(s: seq<Segment>, low: nat, high: nat) {
    && Playable(s, low, high)
    && (low > 0 ==> s[low - 1].gap)
    && (high + 1 < |s| ==> s[high + 1].gap)
  }

  /** The runway the source picks: forward first, then back, and no further than needed. */
  ghost predicate Picked(s: seq<Segment>, anchor: nat, first: nat, last: nat) {
    && Playable(s, first, last)
    && first <= anchor <= last
    && Elapsed(s, last + 1) - Elapsed(s, first) >= Runway
    && (first < anchor ==> last + 1 == |s| || s[last + 1].gap)
    && (first < anchor ==> Elapsed(s, last + 1) - Elapsed(s, first + 1) < Runway)
    && (anchor < last ==> Elapsed(s, last) - Elapsed(s, anchor) < Runway)
  }

  /** Whether the gap-free stretch around the anchor is long enough. */
  ghost predicate LongEnough(s: seq<Segment>, anchor: nat) {
    exists low: nat, high: nat ::
      Playable(s, low, high) && low <= anchor <= high && Elapsed(s, high + 1) - Elapsed(s, low) >= Runway
  }

  lemma {:induction false} WithinMaximal(s: seq<Segment>, low: nat, high: nat, a: nat, b: nat, anchor: nat)
    requires Maximal(s, low, high) && Playable(s, a, b) && low <= anchor <= high && a <= anchor <= b
    ensures low <= a && b <= high
    ensures Elapsed(s, b + 1) - Elapsed(s, a) <= Elapsed(s, high + 1) - Elapsed(s, low)
  {
    assert low == 0 || s[low - 1].gap;
    assert high + 1 == |s| || s[high + 1].gap;
    ElapsedGrows(s, low, a);
    ElapsedGrows(s, b + 1, high + 1);
  }

  method FindRunway(s: seq<Segment>, anchor: nat) returns (r: Option<(nat, nat)>)
    requires anchor < |s| && !s[anchor].gap
    ensures r.Some? <==> LongEnough(s, anchor)
    ensures r.Some? ==> Picked(s, anchor, r.value.0, r.value.1)
  {
    var first: nat, last: nat, time: nat := anchor, anchor, s[anchor].duration;
    while time < Runway && last + 1 < |s| && !s[last + 1].gap
      invariant anchor <= last && Playable(s, anchor, last)
      invariant time == Elapsed(s, last + 1) - Elapsed(s, anchor)
      invariant anchor < last ==> Elapsed(s, last) - Elapsed(s, anchor) < Runway
    {
      last := last + 1;
      time := time + s[last].duration;
    }
    while time < Runway && first > 0
      invariant first <= anchor && Playable(s, first, last)
      invariant time == Elapsed(s, last + 1) - Elapsed(s, first)
      invariant first < anchor ==> last + 1 == |s| || s[last + 1].gap
      invariant first < anchor ==> Elapsed(s, last + 1) - Elapsed(s, first + 1) < Runway
      invariant time < Runway ==> last + 1 == |s| || s[last + 1].gap
    {
      if s[first - 1].gap {
        break;
      }
      first := first - 1;
      time := time + s[first].duration;
    }
    if time < Runway {
      assert Maximal(s, first, last);
      forall low: nat, high: nat | Playable(s, low, high) && low <= anchor <= high
        ensures Elapsed(s, high + 1) - Elapsed(s, low) < Runway
      {
        WithinMaximal(s, first, last, low, high, anchor);
      }
      return None;
    }
    return Some((first, last));
  }

  /** The first playable segment, if there is one. */
  method FirstPlayable(s: seq<Segment>) returns (r: Option<nat>)
    ensures r.Some? ==> r.value < |s| && !s[r.value].gap && forall i :: 0 <= i < r.value ==> s[i].gap
    ensures r.None? ==> forall i :: 0 <= i < |s| ==> s[i].gap
  {
    for i := 0 to |s|
      invariant forall k :: 0 <= k < i ==> s[k].gap
    {
      if !s[i].gap {
        return Some(i);
      }
    }
    return None;
  }

  method LastPlayable(s: seq<Segment>) returns (r: Option<nat>)
    ensures r.Some? ==> r.value < |s| && !s[r.value].gap && forall i :: r.value < i < |s| ==> s[i].gap
    ensures r.None? ==> forall i :: 0 <= i < |s| ==> s[i].gap
  {
    var i := |s|;
    while i > 0
      invariant 0 <= i <= |s|
      invariant forall k :: i <= k < |s| ==> s[k].gap
    {
      i := i - 1;
      if !s[i].gap {
        return Some(i);
      }
    }
    return None;
  }

  ghost predicate AnchorHolds(p: Playlist, number: nat, reference: string) {
    && p.sequence <= number < End(p)
    && !p.segments[number - p.sequence].gap
    && p.segments[number - p.sequence].reference == reference
  }

  /** The first playable segment. */
  predicate IsOldest(s: seq<Segment>, k: nat) {
    k < |s| && !s[k].gap && forall i :: 0 <= i < k ==> s[i].gap
  }

  ghost predicate Anchored(p: Playlist, anchor: nat, plan: Plan, first: nat) {
    && (exists last: nat :: Picked(p.segments, anchor, first, last) && plan.runwayEnd == Elapsed(p.segments, last + 1))
    && first <= |p.segments|
    && plan.playPosition == Elapsed(p.segments, first)
    && plan.duration == Elapsed(p.segments, |p.segments|)
    && plan.runwayEnd - plan.playPosition >= Runway
    && (exists oldest: nat :: IsOldest(p.segments, oldest) && plan.bootstrapPosition == Elapsed(p.segments, oldest))
    && plan.bootstrapPosition <= plan.playPosition
    && (plan.codecBootstrap <==> p.sequence == 0 && plan.bootstrapPosition < plan.playPosition)
  }

  method AnchoredStartupPlan(p: Playlist, number: nat, reference: string) returns (r: Option<(Plan, nat)>)
    requires Timed(p.segments)
    ensures r.Some? <==> AnchorHolds(p, number, reference) && LongEnough(p.segments, number - p.sequence)
    ensures r.Some? ==> Anchored(p, number - p.sequence, r.value.0, r.value.1)
  {
    hide LongEnough, Picked;
    if number < p.sequence || number - p.sequence >= |p.segments| {
      return None;
    }
    var anchor := number - p.sequence;
    if p.segments[anchor].gap || p.segments[anchor].reference != reference {
      return None;
    }
    var runway := FindRunway(p.segments, anchor);
    if runway.None? {
      return None;
    }
    var (first, last) := runway.value;
    var start := FirstPlayable(p.segments);
    assert start.Some? && IsOldest(p.segments, start.value);
    PickedMeans(p.segments, anchor, first, last);
    ElapsedGrows(p.segments, start.value, first);
    var plan := Plan(Elapsed(p.segments, start.value), p.sequence == 0 && Elapsed(p.segments, first) > Elapsed(p.segments, start.value),
                     Elapsed(p.segments, first), Elapsed(p.segments, last + 1), Elapsed(p.segments, |p.segments|));
    r := Some((plan, first));
  }

  lemma {:induction false} PickedMeans(s: seq<Segment>, anchor: nat, first: nat, last: nat)
    requires Picked(s, anchor, first, last)
    ensures first <= last < |s| && !s[first].gap && Elapsed(s, last + 1) - Elapsed(s, first) >= Runway
  {}

  // ----- From a time back to a segment

  /** The segment playing at a time; the last one past the end. */
  method SequenceAtOffset(s: seq<Segment>, time: nat) returns (position: nat)
    ensures s == [] ==> position == 0
    ensures s != [] ==> position < |s|
    ensures s != [] && time < Elapsed(s, |s|) ==> Elapsed(s, position) <= time < Elapsed(s, position + 1)
    ensures s != [] && time >= Elapsed(s, |s|) ==> position == |s| - 1
  {
    var elapsed := 0;
    for i := 0 to |s|
      invariant elapsed == Elapsed(s, i) <= time
    {
      if elapsed + s[i].duration > time {
        ElapsedGrows(s, i + 1, |s|);
        return i;
      }
      elapsed := elapsed + s[i].duration;
    }
    return if |s| == 0 then 0 else |s| - 1;
  }

  /** A segment's own start time leads back to it. */
  lemma {:induction false} StartLeadsBack(s: seq<Segment>, k: nat, position: nat)
    requires Timed(s) && k < |s| && position < |s|
    requires Elapsed(s, position) <= Elapsed(s, k) < Elapsed(s, position + 1)
    ensures position == k
  {
    if position < k {
      ElapsedGrows(s, position + 1, k);
    } else if k < position {
      ElapsedGrows(s, k, position);
    }
  }

  /** Joining at the live edge: the start sequence is the first segment of the
      runway picked around the newest playable segment, and there is none only
      when that segment's gap-free stretch is too short. */
  method StartAtEdge(p: Playlist) returns (r: Option<(Plan, nat)>)
    requires Timed(p.segments)
    ensures r.Some? <==>
              exists anchor: nat :: IsNewest(p.segments, anchor) && LongEnough(p.segments, anchor) && p.sequence + anchor < WordSize
    ensures r.Some? ==> p.sequence <= r.value.1 < End(p)
    ensures r.Some? ==> exists anchor: nat :: IsNewest(p.segments, anchor) && Anchored(p, anchor, r.value.0, r.value.1 - p.sequence)
  {
    hide LongEnough, Anchored;
    var newest := LastPlayable(p.segments);
    if newest.None? {
      return None;
    }
    var anchor := newest.value;
    assert IsNewest(p.segments, anchor);
    if p.sequence + anchor >= WordSize {
      return None;
    }
    var planned := AnchoredStartupPlan(p, p.sequence + anchor, p.segments[anchor].reference);
    if planned.None? {
      return None;
    }
    var (plan, first) := planned.value;
    AnchoredMeans(p, anchor, plan, first);
    var position := SequenceAtOffset(p.segments, plan.playPosition);
    ElapsedGrows(p.segments, first, |p.segments|);
    StartLeadsBack(p.segments, first, position);
    r := Some((plan, p.sequence + position));
  }

  predicate IsNewest(s: seq<Segment>, anchor: nat) {
    anchor < |s| && !s[anchor].gap && forall i :: anchor < i < |s| ==> s[i].gap
  }

  lemma {:induction false} AnchoredMeans(p: Playlist, anchor: nat, plan: Plan, first: nat)
    requires Anchored(p, anchor, plan, first)
    ensures first < |p.segments| && plan.playPosition == Elapsed(p.segments, first)
  {}
}
