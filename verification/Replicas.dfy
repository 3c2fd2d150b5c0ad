/** Mining replica addresses: each accepted candidate takes the lowest depth at
    which it opens a new address prefix. */
module Replicas {
  import opened Options

  /** A candidate: its identifier and the first byte of its address, the only
      byte of the address that mining reads. */
  datatype Replica = Replica(id: seq<nat>, address: nat)


  const QueueSize := 16
  const NeighborhoodCount := 30

  /** How many prefixes of a given length there are. */
  function Count(depth: nat): nat
    requires depth <= 4
  {
    if depth == 0 then 1 else if depth == 1 then 2 else if depth == 2 then 4 else if depth == 3 then 8 else 16
  }

  /** The leading `depth` bits of an address byte. */
  function Prefix(address: nat, depth: nat): (p: nat)
    requires depth <= 4 && address < 256
    ensures p < Count(depth)
  {
    if depth == 0 then 0 else if depth == 1 then address / 128 else if depth == 2 then address / 64
    else if depth == 3 then address / 32 else address / 16
  }

  /** Addresses with the same prefix are the ones of one interval of the address space. */
  lemma {:induction false} PrefixInterval(address: nat, depth: nat, p: nat)
    requires depth <= 4 && address < 256
    ensures Prefix(address, depth) == p <==> 256 * p <= address * Count(depth) < 256 * (p + 1)
  {}

  function Base(depth: nat): nat
    requires 1 <= depth <= 4
  {
    if depth == 1 then 0 else if depth == 2 then 2 else if depth == 3 then 6 else 14
  }

  /** The mark kept for a prefix of a given length. */
  function Neighborhood(depth: nat, prefix: nat): (n: nat)
    requires 1 <= depth <= 4 && prefix < Count(depth)
    ensures n < NeighborhoodCount
  {
    Base(depth) + prefix
  }

  /** The first queue slot of a depth; the last is before the next depth's first. */
  function FirstSlot(depth: nat): nat
    requires 1 <= depth <= 5
  {
    if depth == 1 then 0 else if depth == 2 then 2 else if depth == 3 then 4 else if depth == 4 then 8 else 16
  }

  datatype Mine = Mine(queue: seq<Option<Replica>>, existing: seq<bool>, sizes: seq<nat>)

  predicate Shaped(m: Mine) {
    |m.queue| == QueueSize && |m.existing| == NeighborhoodCount && |m.sizes| == 5
  }

  predicate Marked(m: Mine, depth: nat, prefix: nat)
    requires Shaped(m) && 1 <= depth <= 4
  {
    prefix < Count(depth) && m.existing[Neighborhood(depth, prefix)]
  }

  // ----- What the queue keeps

  predicate At(m: Mine, s: nat)
    requires Shaped(m)
  {
    s < QueueSize && m.queue[s].Some? && m.queue[s].value.address < 256
  }

  ghost predicate FilledUpTo(m: Mine, e: nat)
    requires Shaped(m) && 1 <= e <= 4
  {
    && FirstSlot(e) <= m.sizes[e - 1] <= FirstSlot(e + 1)
    && forall s :: FirstSlot(e) <= s < FirstSlot(e + 1) ==>
         if s < m.sizes[e - 1] then At(m, s) else m.queue[s].None?
  }

  /** Slots are filled in order within each depth's own range. */
  ghost predicate Filled(m: Mine)
    requires Shaped(m)
  {
    FilledUpTo(m, 1) && FilledUpTo(m, 2) && FilledUpTo(m, 3) && FilledUpTo(m, 4)
  }

  /** Shorter prefixes of a marked prefix are marked. */
  ghost predicate Closed(m: Mine, target: nat)
    requires Shaped(m) && target <= 4
  {
    forall e, p: nat :: 2 <= e <= target && Marked(m, e, p) ==> Marked(m, e - 1, p / 2)
  }

  /** Every queued replica has marked all its prefixes. */
  ghost predicate MarkedByQueue(m: Mine, target: nat)
    requires Shaped(m) && target <= 4
  {
    forall s: nat, e :: At(m, s) && 1 <= e <= target ==> Marked(m, e, Prefix(m.queue[s].value.address, e))
  }

  /** Replicas in the first slots differ in their leading bits. */
  ghost predicate Separated(m: Mine, target: nat)
    requires Shaped(m) && target <= 4
  {
    forall s: nat, t: nat, e ::
      1 <= e <= target && s < t < FirstSlot(e + 1) && At(m, s) && At(m, t) ==>
        Prefix(m.queue[s].value.address, e) != Prefix(m.queue[t].value.address, e)
  }

  /** Every marked prefix belongs to a replica in the first slots. */
  ghost predicate Owned(m: Mine, target: nat)
    requires Shaped(m) && target <= 4
  {
    forall e, p: nat :: 1 <= e <= target && Marked(m, e, p) ==> OwnedAt(m, e, p)
  }

  ghost predicate OwnedAt(m: Mine, e: nat, p: nat)
    requires Shaped(m) && 1 <= e <= 4
  {
    exists s: nat :: s < FirstSlot(e + 1) && At(m, s) && Prefix(m.queue[s].value.address, e) == p
  }

  ghost predicate Mined(m: Mine, target: nat) {
    && Shaped(m)
    && target <= 4
    && Filled(m)
    && Closed(m, target)
    && MarkedByQueue(m, target)
    && Separated(m, target)
    && Owned(m, target)
  }

  // ----- Adding a candidate

  datatype Added = Added(mine: Mine, covered: nat, offset: nat)

  /** As the source recurses: mark the prefix at this depth, let the lower depths
      place the candidate, place it here when none did. */
  function Add(m: Mine, c: Replica, depth: nat): (r: Added)
    requires Shaped(m) && depth <= 4 && c.address < 256
    ensures Shaped(r.mine)
    decreases depth
  {
    if depth == 0 then Added(m, 0, 0)
    else
      var n := Neighborhood(depth, Prefix(c.address, depth));
      if m.existing[n] then Added(m, 0, 0)
      else
        var lower := Add(m.(existing := m.existing[n := true]), c, depth - 1);
        if lower.covered != 0 then lower
        else
          var offset := lower.mine.sizes[depth - 1];
          Added(if offset < QueueSize then PlaceAt(lower.mine, c, depth) else lower.mine, Count(depth), offset)
  }

  function PlaceAt(m: Mine, c: Replica, depth: nat): Mine
    requires Shaped(m) && 1 <= depth <= 4 && m.sizes[depth - 1] < QueueSize
  {
    var offset := m.sizes[depth - 1];
    m.(queue := m.queue[offset := Some(c)], sizes := m.sizes[depth - 1 := offset + 1])
  }

  lemma {:induction false} PrefixHalves(address: nat, depth: nat)
    requires address < 256 && 2 <= depth <= 4
    ensures Prefix(address, depth - 1) == Prefix(address, depth) / 2
  {}

  /** The depth at which a candidate new at `depth` is placed. */
  function Landing(m: Mine, c: Replica, depth: nat): (f: nat)
    requires Shaped(m) && 1 <= depth <= 4 && c.address < 256
    ensures 1 <= f <= depth
    ensures f == 1 || Marked(m, f - 1, Prefix(c.address, f - 1))
    ensures forall e :: f <= e < depth ==> !Marked(m, e, Prefix(c.address, e))
    decreases depth
  {
    if depth == 1 || Marked(m, depth - 1, Prefix(c.address, depth - 1)) then depth else Landing(m, c, depth - 1)
  }

  /** The marks after an accepted candidate: its prefixes from the landing depth up. */
  function WithMarks(existing: seq<bool>, c: Replica, low: nat, high: nat): (r: seq<bool>)
    requires |existing| == NeighborhoodCount && 1 <= low && high <= 4 && c.address < 256
    ensures |r| == NeighborhoodCount
    decreases high
  {
    if high < low then existing
    else WithMarks(existing[Neighborhood(high, Prefix(c.address, high)) := true], c, low, high - 1)
  }

  lemma {:induction false} WithMarksAt(existing: seq<bool>, c: Replica, low: nat, high: nat, e: nat, p: nat)
    requires |existing| == NeighborhoodCount && 1 <= low && high <= 4 && c.address < 256
    requires 1 <= e <= 4 && p < Count(e)
    ensures WithMarks(existing, c, low, high)[Neighborhood(e, p)] <==>
            existing[Neighborhood(e, p)] || (low <= e <= high && p == Prefix(c.address, e))
    decreases high
  {
    if high >= low {
      WithMarksAt(existing[Neighborhood(high, Prefix(c.address, high)) := true], c, low, high - 1, e, p);
    }
  }

  /** A candidate new at `depth` is placed once, at its landing depth. */
  lemma {:induction false} AddPlaces(m: Mine, c: Replica, depth: nat)
    requires Shaped(m) && 1 <= depth <= 4 && c.address < 256 && !Marked(m, depth, Prefix(c.address, depth))
    requires m.sizes[Landing(m, c, depth) - 1] < QueueSize
    ensures var f := Landing(m, c, depth);
            && Add(m, c, depth).covered == Count(f)
            && Add(m, c, depth).mine == PlaceAt(m.(existing := WithMarks(m.existing, c, f, depth)), c, f)
    decreases depth
  {
    hide Prefix, Neighborhood, FirstSlot, Count, PlaceAt, Marked, WithMarks;
    var m' := Mark(m, c, depth);
    AddUnfolds(m, c, depth);
    if depth > 1 {
      MarksElsewhere(m, c, depth);
    }
    if depth > 1 && !Marked(m, depth - 1, Prefix(c.address, depth - 1)) {
      LandingUnaffected(m, m', c, depth - 1);
      AddPlaces(m', c, depth - 1);
      CountPositive(Landing(m, c, depth));
      WithMarksUnfolds(m, c, Landing(m, c, depth), depth);
    } else {
      RejectedUnchanged(m', c, depth - 1);
      WithMarksUnfolds(m, c, depth, depth);
    }
  }

  function Mark(m: Mine, c: Replica, depth: nat): (r: Mine)
    requires Shaped(m) && 1 <= depth <= 4 && c.address < 256
    ensures Shaped(r)
  {
    m.(existing := m.existing[Neighborhood(depth, Prefix(c.address, depth)) := true])
  }

  lemma {:induction false} AddUnfolds(m: Mine, c: Replica, depth: nat)
    requires Shaped(m) && 1 <= depth <= 4 && c.address < 256 && !Marked(m, depth, Prefix(c.address, depth))
    ensures var lower := Add(Mark(m, c, depth), c, depth - 1);
            if lower.covered != 0 then Add(m, c, depth) == lower
            else lower.mine.sizes[depth - 1] < QueueSize ==>
                   Add(m, c, depth) == Added(PlaceAt(lower.mine, c, depth), Count(depth), lower.mine.sizes[depth - 1])
  {
    hide Prefix, Neighborhood, FirstSlot, Count, PlaceAt;
  }

  lemma {:induction false} WithMarksUnfolds(m: Mine, c: Replica, low: nat, high: nat)
    requires Shaped(m) && 1 <= low <= high <= 4 && c.address < 256
    ensures m.(existing := WithMarks(m.existing, c, low, high)) ==
            Mark(m, c, high).(existing := WithMarks(Mark(m, c, high).existing, c, low, high - 1))
    ensures low == high ==> m.(existing := WithMarks(m.existing, c, low, high)) == Mark(m, c, high)
  {
    hide Prefix, Neighborhood, Count;
  }

  lemma {:induction false} CountPositive(depth: nat)
    requires depth <= 4
    ensures Count(depth) > 0
  {}

  lemma {:induction false} MarksElsewhere(m: Mine, c: Replica, depth: nat)
    requires Shaped(m) && 2 <= depth <= 4 && c.address < 256
    ensures var m' := Mark(m, c, depth);
            forall e :: 1 <= e < depth ==> Marked(m, e, Prefix(c.address, e)) == Marked(m', e, Prefix(c.address, e))
  {}

  lemma {:induction false} LandingUnaffected(m: Mine, m': Mine, c: Replica, depth: nat)
    requires Shaped(m) && Shaped(m') && 1 <= depth <= 4 && c.address < 256
    requires forall e :: 1 <= e < depth ==> Marked(m, e, Prefix(c.address, e)) == Marked(m', e, Prefix(c.address, e))
    ensures Landing(m, c, depth) == Landing(m', c, depth)
    decreases depth
  {
    if depth > 1 && !Marked(m, depth - 1, Prefix(c.address, depth - 1)) {
      LandingUnaffected(m, m', c, depth - 1);
    }
  }

  lemma {:induction false} RejectedUnchanged(m: Mine, c: Replica, depth: nat)
    requires Shaped(m) && depth <= 4 && c.address < 256
    requires depth > 0 ==> Marked(m, depth, Prefix(c.address, depth))
    ensures Add(m, c, depth) == Added(m, 0, 0)
  {}

  // ----- An accepted candidate keeps the queue in order

  ghost predicate New(m: Mine, c: Replica, target: nat, f: nat)
    requires Shaped(m)
  {
    && 1 <= f <= target <= 4
    && c.address < 256
    && (f == 1 || Marked(m, f - 1, Prefix(c.address, f - 1)))
    && forall e :: f <= e <= target ==> !Marked(m, e, Prefix(c.address, e))
  }

  lemma {:induction false} Pigeonhole(s: seq<nat>, n: nat)
    requires forall i :: 0 <= i < |s| ==> s[i] < n
    requires forall i, j :: 0 <= i < j < |s| ==> s[i] != s[j]
    ensures |s| <= n
    ensures |s| == n ==> forall v: nat :: v < n ==> v in s
  {
    if s == [] {
      return;
    }
    assert s[0] < n;
    if n - 1 in s {
      var k :| 0 <= k < |s| && s[k] == n - 1;
      var rest := s[..k] + s[k + 1..];
      Pigeonhole(rest, n - 1);
      assert forall v :: v in rest ==> v in s;
    } else {
      Pigeonhole(s, n - 1);
    }
  }

  lemma {:induction false} ThreeHalves(a: nat, b: nat, c: nat)
    requires a / 2 == b / 2 == c / 2
    ensures a == b || b == c || a == c
  {}

  /** Two replicas of one depth open different parents. */
  lemma {:induction false} SiblingsApart(m: Mine, target: nat, f: nat, s: nat, t: nat)
    requires Mined(m, target) && 2 <= f <= target
    requires FirstSlot(f) <= s < t < FirstSlot(f + 1) && At(m, s) && At(m, t)
    ensures Prefix(m.queue[s].value.address, f - 1) != Prefix(m.queue[t].value.address, f - 1)
  {
    hide Filled, Closed, Prefix, Count, Neighborhood;
    var p := Prefix(m.queue[s].value.address, f - 1);
    if Prefix(m.queue[t].value.address, f - 1) == p {
      assert Marked(m, f - 1, p);
      assert OwnedAt(m, f - 1, p);
      var o: nat :| o < FirstSlot(f) && At(m, o) && Prefix(m.queue[o].value.address, f - 1) == p;
      PrefixHalves(m.queue[o].value.address, f);
      PrefixHalves(m.queue[s].value.address, f);
      PrefixHalves(m.queue[t].value.address, f);
      ThreeHalves(Prefix(m.queue[o].value.address, f), Prefix(m.queue[s].value.address, f), Prefix(m.queue[t].value.address, f));
    }
  }

  /** A new candidate opens a parent that no replica of its depth has opened. */
  lemma {:induction false} NewApart(m: Mine, target: nat, c: Replica, f: nat, s: nat)
    requires Mined(m, target) && New(m, c, target, f) && 2 <= f
    requires FirstSlot(f) <= s < FirstSlot(f + 1) && At(m, s)
    ensures Prefix(m.queue[s].value.address, f - 1) != Prefix(c.address, f - 1)
  {
    hide Filled, Closed, Prefix, Count, Neighborhood;
    var p := Prefix(c.address, f - 1);
    if Prefix(m.queue[s].value.address, f - 1) == p {
      assert OwnedAt(m, f - 1, p);
      var o: nat :| o < FirstSlot(f) && At(m, o) && Prefix(m.queue[o].value.address, f - 1) == p;
      assert Marked(m, f, Prefix(m.queue[o].value.address, f));
      assert Marked(m, f, Prefix(m.queue[s].value.address, f));
      PrefixHalves(m.queue[o].value.address, f);
      PrefixHalves(m.queue[s].value.address, f);
      PrefixHalves(c.address, f);
      ThreeHalves(Prefix(m.queue[o].value.address, f), Prefix(m.queue[s].value.address, f), Prefix(c.address, f));
    }
  }

  /** A depth never runs out of slots for a candidate that lands there. */
  lemma {:induction false} RoomAtLanding(m: Mine, target: nat, c: Replica, f: nat)
    requires Mined(m, target) && New(m, c, target, f)
    ensures m.sizes[f - 1] < FirstSlot(f + 1)
  {
    hide Filled, Closed, Prefix, Neighborhood, Count, MarkedByQueue, Separated, Owned, At;
    FilledRange(m, f);
    if m.sizes[f - 1] == FirstSlot(f + 1) {
      var d := if f == 1 then 1 else f - 1;
      var parents := Parents(m, c, f, d);
      forall i, j | 0 <= i < j < |parents| ensures parents[i] != parents[j] {
        ParentsApart(m, target, c, f, d, FirstSlot(f) + i, FirstSlot(f) + j);
      }
      Pigeonhole(parents, Count(d));
      ParentCount(f);
    }
  }

  lemma {:induction false} ParentCount(f: nat)
    requires 1 <= f <= 4
    ensures FirstSlot(f + 1) - FirstSlot(f) == Count(if f == 1 then 1 else f - 1)
  {}

  ghost function Parents(m: Mine, c: Replica, f: nat, d: nat): (r: seq<nat>)
    requires Shaped(m) && 1 <= f <= 4 && 1 <= d <= 4 && FilledUpTo(m, f) && c.address < 256
    requires m.sizes[f - 1] == FirstSlot(f + 1)
    ensures |r| == FirstSlot(f + 1) - FirstSlot(f) + 1
    ensures forall i :: 0 <= i < |r| ==> r[i] < Count(d)
    ensures forall i :: 0 <= i < |r| - 1 ==> At(m, FirstSlot(f) + i) && r[i] == Prefix(m.queue[FirstSlot(f) + i].value.address, d)
    ensures r[|r| - 1] == Prefix(c.address, d)
  {
    seq(FirstSlot(f + 1) - FirstSlot(f) + 1, i requires 0 <= i <= FirstSlot(f + 1) - FirstSlot(f) => ParentAt(m, c, f, d, i))
  }

  ghost function ParentAt(m: Mine, c: Replica, f: nat, d: nat, i: nat): (p: nat)
    requires Shaped(m) && 1 <= f <= 4 && 1 <= d <= 4 && FilledUpTo(m, f) && c.address < 256
    requires m.sizes[f - 1] == FirstSlot(f + 1) && i <= FirstSlot(f + 1) - FirstSlot(f)
    ensures p < Count(d)
  {
    if i == FirstSlot(f + 1) - FirstSlot(f) then Prefix(c.address, d)
    else
      assert At(m, FirstSlot(f) + i);
      Prefix(m.queue[FirstSlot(f) + i].value.address, d)
  }

  lemma {:induction false} FilledRange(m: Mine, f: nat)
    requires Shaped(m) && Filled(m) && 1 <= f <= 4
    ensures FilledUpTo(m, f)
  {}

  lemma {:induction false} ParentsApart(m: Mine, target: nat, c: Replica, f: nat, d: nat, s: nat, t: nat)
    requires Mined(m, target) && New(m, c, target, f) && d == (if f == 1 then 1 else f - 1)
    requires m.sizes[f - 1] == FirstSlot(f + 1) && FirstSlot(f) <= s < t <= FirstSlot(f + 1)
    ensures At(m, s) && (t < FirstSlot(f + 1) ==> At(m, t))
    ensures Prefix(m.queue[s].value.address, d) !=
            if t < FirstSlot(f + 1) then Prefix(m.queue[t].value.address, d) else Prefix(c.address, d)
  {
    hide Filled, Closed, Prefix, Neighborhood, Count, Owned;
    FilledRange(m, f);
    if f == 1 {
      assert Marked(m, 1, Prefix(m.queue[s].value.address, 1));
    } else if t < FirstSlot(f + 1) {
      SiblingsApart(m, target, f, s, t);
    } else {
      NewApart(m, target, c, f, s);
    }
  }

  // The state after the candidate is placed.
  ghost predicate Placed(m: Mine, m': Mine, c: Replica, target: nat, f: nat) {
    && Shaped(m) && Shaped(m')
    && New(m, c, target, f)
    && m.sizes[f - 1] < FirstSlot(f + 1)
    && m'.queue == m.queue[m.sizes[f - 1] := Some(c)]
    && m'.sizes == m.sizes[f - 1 := m.sizes[f - 1] + 1]
    && forall e, p: nat :: 1 <= e <= 4 && p < Count(e) ==>
         (Marked(m', e, p) <==> Marked(m, e, p) || (f <= e <= target && p == Prefix(c.address, e)))
  }

  lemma {:induction false} KeepsFilled(m: Mine, m': Mine, c: Replica, target: nat, f: nat)
    requires Mined(m, target) && Placed(m, m', c, target, f)
    ensures Filled(m')
  {
    hide Closed, MarkedByQueue, Separated, Owned, Prefix, Neighborhood, Count;
  }

  /** The new slot was free, so every queued replica keeps its slot. */
  lemma {:induction false} KeepsSlots(m: Mine, m': Mine, c: Replica, target: nat, f: nat, s: nat)
    requires Mined(m, target) && Placed(m, m', c, target, f)
    ensures FirstSlot(f) <= m.sizes[f - 1] < FirstSlot(f + 1) && !At(m, m.sizes[f - 1])
    ensures At(m', s) <==> At(m, s) || s == m.sizes[f - 1]
    ensures At(m', s) ==> m'.queue[s] == if s == m.sizes[f - 1] then Some(c) else m.queue[s]
  {
    hide Closed, MarkedByQueue, Separated, Owned, Prefix, Neighborhood, Count, Filled;
    FilledRange(m, f);
  }

  lemma {:induction false} KeepsClosed(m: Mine, m': Mine, c: Replica, target: nat, f: nat)
    requires Mined(m, target) && Placed(m, m', c, target, f)
    ensures Closed(m', target)
  {
    hide MarkedByQueue, Separated, Owned, Filled, Prefix, Neighborhood;
    forall e, p: nat | 2 <= e <= target && Marked(m', e, p) ensures Marked(m', e - 1, p / 2) {
      assert p / 2 < Count(e - 1);
      PrefixHalves(c.address, e);
      if !Marked(m, e, p) {
        assert p == Prefix(c.address, e);
      } else {
        assert Marked(m, e - 1, p / 2);
      }
    }
  }

  lemma {:induction false} ShorterMarked(m: Mine, target: nat, address: nat, e: nat, f: nat)
    requires Shaped(m) && target <= 4 && Closed(m, target) && address < 256
    requires 1 <= e <= f <= target && Marked(m, f, Prefix(address, f))
    ensures Marked(m, e, Prefix(address, e))
    decreases f
  {
    hide Prefix, Neighborhood, Count;
    if e < f {
      PrefixHalves(address, f);
      ShorterMarked(m, target, address, e, f - 1);
    }
  }

  lemma {:induction false} KeepsMarkedByQueue(m: Mine, m': Mine, c: Replica, target: nat, f: nat)
    requires Mined(m, target) && Placed(m, m', c, target, f)
    ensures MarkedByQueue(m', target)
  {
    hide Separated, Owned, Filled, Prefix, Neighborhood, Closed, Count;
    forall s: nat, e | At(m', s) && 1 <= e <= target ensures Marked(m', e, Prefix(m'.queue[s].value.address, e)) {
      KeepsSlots(m, m', c, target, f, s);
      if s == m.sizes[f - 1] {
        if e < f {
          ShorterMarked(m, target, c.address, e, f - 1);
        }
      } else {
        assert Marked(m, e, Prefix(m.queue[s].value.address, e));
      }
    }
  }

  lemma {:induction false} KeepsSeparated(m: Mine, m': Mine, c: Replica, target: nat, f: nat)
    requires Mined(m, target) && Placed(m, m', c, target, f)
    ensures Separated(m', target)
  {
    hide Owned, Filled, Prefix, Neighborhood, Closed, Count;
    forall s: nat, t: nat, e | 1 <= e <= target && s < t < FirstSlot(e + 1) && At(m', s) && At(m', t)
      ensures Prefix(m'.queue[s].value.address, e) != Prefix(m'.queue[t].value.address, e)
    {
      KeepsSlots(m, m', c, target, f, s);
      KeepsSlots(m, m', c, target, f, t);
      if s == m.sizes[f - 1] || t == m.sizes[f - 1] {
        var other := if s == m.sizes[f - 1] then t else s;
        assert Marked(m, e, Prefix(m.queue[other].value.address, e));
      }
    }
  }

  lemma {:induction false} KeepsOwned(m: Mine, m': Mine, c: Replica, target: nat, f: nat)
    requires Mined(m, target) && Placed(m, m', c, target, f)
    ensures Owned(m', target)
  {
    hide Separated, MarkedByQueue, Filled, Prefix, Neighborhood, Closed, Count;
    forall e, p: nat | 1 <= e <= target && Marked(m', e, p) ensures OwnedAt(m', e, p) {
      if Marked(m, e, p) {
        assert OwnedAt(m, e, p);
        var s: nat :| s < FirstSlot(e + 1) && At(m, s) && Prefix(m.queue[s].value.address, e) == p;
        KeepsSlots(m, m', c, target, f, s);
      } else {
        KeepsSlots(m, m', c, target, f, m.sizes[f - 1]);
      }
    }
  }

  /** A candidate keeps the queue in order, whether it is placed or not; when it
      is placed, the slot it takes was free and inside its depth's own range. */
  lemma {:induction false} AddKeeps(m: Mine, c: Replica, target: nat)
    requires Mined(m, target) && 1 <= target && c.address < 256
    ensures Fits(m, c, target)
    ensures Mined(Add(m, c, target).mine, target)
    ensures if Marked(m, target, Prefix(c.address, target)) then Add(m, c, target) == Added(m, 0, 0)
            else
              var f := Landing(m, c, target);
              && FirstSlot(f) <= m.sizes[f - 1] < FirstSlot(f + 1)
              && m.queue[m.sizes[f - 1]].None?
              && Add(m, c, target).covered == Count(f) > 0
              && Add(m, c, target).mine.queue == m.queue[m.sizes[f - 1] := Some(c)]
  {
    hide Add, Separated, MarkedByQueue, Filled, Prefix, Neighborhood, Closed, Owned;
    if Marked(m, target, Prefix(c.address, target)) {
      RejectedUnchanged(m, c, target);
    } else {
      var f := Landing(m, c, target);
      assert New(m, c, target, f);
      RoomAtLanding(m, target, c, f);
      AddPlaces(m, c, target);
      var m' := Add(m, c, target).mine;
      forall e, p: nat | 1 <= e <= 4 && p < Count(e)
        ensures Marked(m', e, p) <==> Marked(m, e, p) || (f <= e <= target && p == Prefix(c.address, e))
      {
        WithMarksAt(m.existing, c, f, target, e, p);
      }
      assert Placed(m, m', c, target, f);
      FilledRange(m, f);
      KeepsFilled(m, m', c, target, f);
      KeepsClosed(m, m', c, target, f);
      KeepsMarkedByQueue(m, m', c, target, f);
      KeepsSeparated(m, m', c, target, f);
      KeepsOwned(m, m', c, target, f);
    }
  }

  predicate Fits(m: Mine, c: Replica, depth: nat)
    requires Shaped(m) && depth <= 4 && c.address < 256
  {
    depth == 0 || Marked(m, depth, Prefix(c.address, depth)) || m.sizes[Landing(m, c, depth) - 1] < QueueSize
  }

  // ----- The allocator in place

  ghost function MineOf(queue: array<Option<Replica>>, existing: array<bool>, sizes: array<nat>): Mine
    reads queue, existing, sizes
  {
    Mine(queue[..], existing[..], sizes[..])
  }

  method AddReplica(c: Replica, depth: nat, queue: array<Option<Replica>>, existing: array<bool>, sizes: array<nat>)
    returns (covered: nat, offset: nat)
    requires Shaped(MineOf(queue, existing, sizes)) && depth <= 4 && c.address < 256
    requires Fits(MineOf(queue, existing, sizes), c, depth)
    modifies queue, existing, sizes
    ensures Added(MineOf(queue, existing, sizes), covered, offset) == Add(old(MineOf(queue, existing, sizes)), c, depth)
    decreases depth
  {
    hide Prefix, Neighborhood, FirstSlot, Count, Marked, Landing;
    if depth == 0 {
      return 0, 0;
    }
    ghost var m := MineOf(queue, existing, sizes);
    var n := Neighborhood(depth, Prefix(c.address, depth));
    MarkedMeans(m, c, depth);
    if existing[n] {
      return 0, 0;
    }
    existing[n] := true;
    assert MineOf(queue, existing, sizes) == Mark(m, c, depth);
    FitsBelow(m, c, depth);
    covered, offset := AddReplica(c, depth - 1, queue, existing, sizes);
    if covered == 0 {
      offset := sizes[depth - 1];
      sizes[depth - 1] := offset + 1;
      queue[offset] := Some(c);
      covered := Count(depth);
    }
  }

  lemma {:induction false} MarkedMeans(m: Mine, c: Replica, depth: nat)
    requires Shaped(m) && 1 <= depth <= 4 && c.address < 256
    ensures Marked(m, depth, Prefix(c.address, depth)) <==> m.existing[Neighborhood(depth, Prefix(c.address, depth))]
  {}

  /** A candidate that fits fits the lower depths, and this one when they refuse. */
  lemma {:induction false} FitsBelow(m: Mine, c: Replica, depth: nat)
    requires Shaped(m) && 1 <= depth <= 4 && c.address < 256 && !Marked(m, depth, Prefix(c.address, depth))
    requires m.sizes[Landing(m, c, depth) - 1] < QueueSize
    ensures Fits(Mark(m, c, depth), c, depth - 1)
    ensures var lower := Add(Mark(m, c, depth), c, depth - 1);
            lower.covered == 0 ==> lower.mine.sizes[depth - 1] < QueueSize
  {
    hide Prefix, Neighborhood, FirstSlot, Count, PlaceAt, Marked, WithMarks, Add;
    var m' := Mark(m, c, depth);
    if depth > 1 {
      MarksElsewhere(m, c, depth);
    }
    if depth > 1 && !Marked(m, depth - 1, Prefix(c.address, depth - 1)) {
      LandingUnaffected(m, m', c, depth - 1);
      AddPlaces(m', c, depth - 1);
      CountPositive(Landing(m', c, depth - 1));
    } else {
      RejectedUnchanged(m', c, depth - 1);
    }
  }

  // ----- Mining a run of candidates

  function Start(): (m: Mine)
    ensures Shaped(m)
  {
    Mine(seq(QueueSize, _ => None), seq(NeighborhoodCount, _ => false), [0, 2, 4, 8, 16])
  }

  ghost predicate Bytes(cs: seq<Replica>) {
    forall i :: 0 <= i < |cs| ==> cs[i].address < 256
  }

  ghost function MineAll(cs: seq<Replica>, level: nat): (m: Mine)
    requires level <= 4 && Bytes(cs)
    ensures Shaped(m)
  {
    if cs == [] then Start() else Add(MineAll(cs[..|cs| - 1], level), cs[|cs| - 1], level).mine
  }

  ghost predicate Hit(cs: seq<Replica>, e: nat, p: nat)
    requires e <= 4 && Bytes(cs)
  {
    exists i :: 0 <= i < |cs| && Prefix(cs[i].address, e) == p
  }

  ghost predicate MarksAreHits(m: Mine, cs: seq<Replica>, level: nat)
    requires Shaped(m) && level <= 4 && Bytes(cs)
  {
    forall e, p: nat :: 1 <= e <= level && p < Count(e) ==> (Marked(m, e, p) <==> Hit(cs, e, p))
  }

  ghost predicate Unused(m: Mine, level: nat)
    requires Shaped(m) && 1 <= level <= 4
  {
    forall s :: FirstSlot(level + 1) <= s < QueueSize ==> m.queue[s].None?
  }

  ghost predicate FromCandidates(m: Mine, cs: seq<Replica>)
    requires Shaped(m)
  {
    forall s :: 0 <= s < QueueSize && m.queue[s].Some? ==> m.queue[s].value in cs
  }

  lemma {:induction false} StartMined(level: nat)
    requires 1 <= level <= 4
    ensures Mined(Start(), level) && Unused(Start(), level)
  {
    hide Prefix;
  }

  lemma {:induction false} RunMined(cs: seq<Replica>, level: nat)
    requires 1 <= level <= 4 && Bytes(cs)
    ensures Mined(MineAll(cs, level), level)
    ensures Unused(MineAll(cs, level), level)
    ensures FromCandidates(MineAll(cs, level), cs)
    ensures MarksAreHits(MineAll(cs, level), cs, level)
    decreases |cs|
  {
    hide Add, Mined, MarksAreHits, Prefix, Count, Neighborhood;
    if cs == [] {
      StartMined(level);
      StartUnmarked(level);
    } else {
      var before, c := cs[..|cs| - 1], cs[|cs| - 1];
      assert Bytes(before);
      RunMined(before, level);
      AddKeeps(MineAll(before, level), c, level);
      AddMarks(MineAll(before, level), before, c, level);
      assert cs == before + [c];
      assert FromCandidates(MineAll(cs, level), cs) by {
        assert forall r :: r in before ==> r in cs;
      }
      LandingSlot(MineAll(before, level), c, level);
    }
  }

  lemma {:induction false} LandingSlot(m: Mine, c: Replica, level: nat)
    requires Shaped(m) && 1 <= level <= 4 && c.address < 256
    ensures FirstSlot(Landing(m, c, level) + 1) <= FirstSlot(level + 1)
  {
    hide Landing;
  }

  lemma {:induction false} StartUnmarked(level: nat)
    requires 1 <= level <= 4
    ensures MarksAreHits(Start(), [], level)
  {}

  /** A candidate, placed or not, leaves exactly its own prefixes marked besides. */
  lemma {:induction false} AddMarks(m: Mine, cs: seq<Replica>, c: Replica, level: nat)
    requires Mined(m, level) && 1 <= level && Bytes(cs) && c.address < 256 && MarksAreHits(m, cs, level)
    ensures MarksAreHits(Add(m, c, level).mine, cs + [c], level)
  {
    hide Add, Prefix, Count, Neighborhood, Filled, Separated, Owned, MarkedByQueue, Closed, FirstSlot;
    var m' := Add(m, c, level).mine;
    forall e, p: nat | 1 <= e <= level && p < Count(e) ensures Marked(m', e, p) <==> Hit(cs + [c], e, p) {
      HitAppend(cs, c, e, p);
      if Marked(m, level, Prefix(c.address, level)) {
        RejectedUnchanged(m, c, level);
        ShorterMarked(m, level, c.address, e, level);
      } else {
        var f := Landing(m, c, level);
        AddKeeps(m, c, level);
        AddPlaces(m, c, level);
        WithMarksAt(m.existing, c, f, level, e, p);
        if e < f {
          ShorterMarked(m, level, c.address, e, f - 1);
        }
      }
    }
  }

  lemma {:induction false} HitAppend(cs: seq<Replica>, c: Replica, e: nat, p: nat)
    requires e <= 4 && Bytes(cs) && c.address < 256
    ensures Bytes(cs + [c])
    ensures Hit(cs + [c], e, p) <==> Hit(cs, e, p) || p == Prefix(c.address, e)
  {
    hide Prefix;
    assert (cs + [c])[|cs|] == c;
    if Hit(cs, e, p) {
      var i :| 0 <= i < |cs| && Prefix(cs[i].address, e) == p;
      assert (cs + [c])[i] == cs[i];
    }
  }

  // ----- What the output covers

  /** `out` is the queue up to its first empty slot. */
  ghost predicate IsLeading(out: seq<Replica>, queue: seq<Option<Replica>>) {
    && |out| <= |queue|
    && (forall i :: 0 <= i < |out| ==> queue[i] == Some(out[i]))
    && (|out| < |queue| ==> queue[|out|].None?)
  }

  ghost predicate Once(out: seq<Replica>, e: nat, p: nat)
    requires 1 <= e <= 4 && Bytes(out)
  {
    && Hit(out, e, p)
    && forall i, j :: 0 <= i < j < |out| && Prefix(out[i].address, e) == p ==> Prefix(out[j].address, e) != p
  }

  /** The first `2^e` addresses hit every `e`-bit prefix exactly once. */
  ghost predicate Covers(out: seq<Replica>, e: nat)
    requires 1 <= e <= 4 && Bytes(out)
  {
    && |out| >= Count(e)
    && forall p: nat :: p < Count(e) ==> Once(out[..Count(e)], e, p)
  }

  /** The output covers the `e`-bit prefixes as soon as it holds `2^e` replicas. */
  lemma {:induction false} EnoughCovers(m: Mine, level: nat, out: seq<Replica>, e: nat)
    requires Mined(m, level) && IsLeading(out, m.queue) && Bytes(out)
    requires 1 <= e <= level <= 4 && |out| >= Count(e)
    ensures Covers(out, e)
  {
    hide Mined, Prefix, Neighborhood;
    var first := out[..Count(e)];
    forall i, j | 0 <= i < j < |first| ensures Prefix(first[i].address, e) != Prefix(first[j].address, e) {
      LeadingApart(m, level, out, e, i, j);
    }
    DistinctCover(first, e);
  }

  lemma {:induction false} LeadingApart(m: Mine, level: nat, out: seq<Replica>, e: nat, i: nat, j: nat)
    requires Mined(m, level) && IsLeading(out, m.queue) && Bytes(out)
    requires 1 <= e <= level && i < j < |out| && j < Count(e)
    ensures Prefix(out[i].address, e) != Prefix(out[j].address, e)
  {
    hide Filled, Closed, Owned, MarkedByQueue, Prefix, Neighborhood;
    assert At(m, i) && At(m, j);
  }

  lemma {:induction false} DistinctCover(first: seq<Replica>, e: nat)
    requires 1 <= e <= 4 && |first| == Count(e) && Bytes(first)
    requires forall i, j :: 0 <= i < j < |first| ==> Prefix(first[i].address, e) != Prefix(first[j].address, e)
    ensures forall p: nat :: p < Count(e) ==> Once(first, e, p)
  {
    hide Prefix, Count;
    var prefixes := Prefixes(first, e);
    forall i, j | 0 <= i < j < |first| ensures prefixes[i] != prefixes[j] {
      assert Prefix(first[i].address, e) != Prefix(first[j].address, e);
    }
    Pigeonhole(prefixes, Count(e));
    forall p: nat | p < Count(e) ensures Once(first, e, p) {
      assert p in prefixes;
      var i :| 0 <= i < |prefixes| && prefixes[i] == p;
      assert Prefix(first[i].address, e) == p;
    }
  }

  ghost function Prefixes(cs: seq<Replica>, e: nat): (r: seq<nat>)
    requires 1 <= e <= 4 && Bytes(cs)
    ensures |r| == |cs|
    ensures forall i :: 0 <= i < |r| ==> r[i] == Prefix(cs[i].address, e) < Count(e)
  {
    seq(|cs|, i requires 0 <= i < |cs| => Prefix(cs[i].address, e))
  }

  /** When every `e`-bit prefix is marked, each of the first `2^e` slots is taken. */
  lemma {:induction false} AllMarkedFills(m: Mine, level: nat, e: nat, t: nat)
    requires Mined(m, level) && 1 <= e <= level && t < Count(e)
    requires forall p: nat :: p < Count(e) ==> Marked(m, e, p)
    ensures At(m, t)
  {
    hide Filled, Closed, MarkedByQueue, Prefix, Neighborhood, FirstSlot, Count, Separated;
    SlotsOfDepth(e);
    var owners := Owners(m, level, e, Count(e));
    forall i, j | 0 <= i < j < |owners| ensures owners[i] != owners[j] {
      assert Prefix(m.queue[owners[i]].value.address, e) == i;
    }
    Pigeonhole(owners, Count(e));
    assert t in owners;
  }

  lemma {:induction false} SlotsOfDepth(e: nat)
    requires 1 <= e <= 4
    ensures FirstSlot(e + 1) == Count(e)
  {}

  /** The slots that own the first `n` prefixes. */
  ghost function Owners(m: Mine, level: nat, e: nat, n: nat): (r: seq<nat>)
    requires Mined(m, level) && 1 <= e <= level && n <= Count(e)
    requires forall p: nat :: p < n ==> Marked(m, e, p)
    ensures |r| == n
    ensures forall p :: 0 <= p < n ==> r[p] < FirstSlot(e + 1) && At(m, r[p]) && Prefix(m.queue[r[p]].value.address, e) == p
  {
    hide Filled, Closed, MarkedByQueue, Prefix, Neighborhood, FirstSlot, Count, Separated;
    if n == 0 then []
    else
      assert OwnedAt(m, e, n - 1);
      var s: nat :| s < FirstSlot(e + 1) && At(m, s) && Prefix(m.queue[s].value.address, e) == n - 1;
      Owners(m, level, e, n - 1) + [s]
  }

  /** The output holds `2^e` replicas exactly when the candidates hit every
      `e`-bit prefix, and then it covers them all. */
  lemma {:induction false} CoversIffHit(cs: seq<Replica>, level: nat, out: seq<Replica>, e: nat)
    requires 1 <= e <= level <= 4 && Bytes(cs) && IsLeading(out, MineAll(cs, level).queue)
    ensures Bytes(out)
    ensures |out| >= Count(e) <==> forall p: nat :: p < Count(e) ==> Hit(cs, e, p)
    ensures |out| >= Count(e) ==> Covers(out, e)
  {
    hide Mined, Prefix, Neighborhood, MineAll;
    var m := MineAll(cs, level);
    RunMined(cs, level);
    forall i | 0 <= i < |out| ensures out[i].address < 256 {
      assert m.queue[i].value in cs;
    }
    if |out| >= Count(e) {
      EnoughCovers(m, level, out, e);
      forall p: nat | p < Count(e) ensures Hit(cs, e, p) {
        HitFromOutput(m, cs, out, e, p);
      }
    }
    if forall p: nat :: p < Count(e) ==> Hit(cs, e, p) {
      if |out| < Count(e) {
        AllMarkedFills(m, level, e, |out|);
      }
    }
  }

  lemma {:induction false} HitFromOutput(m: Mine, cs: seq<Replica>, out: seq<Replica>, e: nat, p: nat)
    requires Shaped(m) && Bytes(cs) && Bytes(out) && 1 <= e <= 4 && p < Count(e)
    requires IsLeading(out, m.queue) && FromCandidates(m, cs) && Covers(out, e)
    ensures Hit(cs, e, p)
  {
    hide Prefix, Count;
    var first := out[..Count(e)];
    assert Once(first, e, p);
    var i :| 0 <= i < |first| && Prefix(first[i].address, e) == p;
    assert m.queue[i].value in cs;
  }

  // ----- Stopping early

  /** Once the output is full, later candidates change nothing. */
  lemma {:induction false} FullStays(cs: seq<Replica>, level: nat, k: nat)
    requires 1 <= level <= 4 && Bytes(cs) && k <= |cs|
    requires forall p: nat :: p < Count(level) ==> Hit(cs[..k], level, p)
    ensures MineAll(cs, level) == MineAll(cs[..k], level)
    decreases |cs|
  {
    hide Add, Prefix, Count, Mined;
    if k == |cs| {
      assert cs[..k] == cs;
    } else {
      var before, c := cs[..|cs| - 1], cs[|cs| - 1];
      assert before[..k] == cs[..k];
      FullStays(before, level, k);
      RunMined(cs[..k], level);
      assert Marked(MineAll(before, level), level, Prefix(c.address, level));
      RejectedUnchanged(MineAll(before, level), c, level);
    }
  }

  // ----- The miner

  function ReplicaCount(level: nat): nat
    requires level <= 4
  {
    if level == 0 then 0 else Count(level)
  }

  const CandidateCount := 255

  /** The candidates in order: the root with its first byte replaced, and the
      first byte of whatever address the caller answers for it. */
  function Candidates(root: seq<nat>, addresses: seq<nat>): (cs: seq<Replica>)
    requires |root| == HashSize
    ensures |cs| == |addresses|
    ensures forall i :: 0 <= i < |cs| ==> cs[i] == Replica(root[0 := i], addresses[i])
  {
    seq(|addresses|, i requires 0 <= i < |addresses| => Replica(root[0 := i], addresses[i]))
  }

  ghost predicate MinerResult(root: seq<nat>, level: nat, addresses: seq<nat>, r: Option<seq<Replica>>)
    requires level <= 4 && forall i :: 0 <= i < |addresses| ==> addresses[i] < 256
  {
    if |root| != HashSize then r.None?
    else if level == 0 then r == Some([])
    else
      var cs := Candidates(root, addresses);
      && r.Some?
      && Bytes(r.value)
      && |r.value| <= ReplicaCount(level)
      && IsLeading(r.value, MineAll(cs, level).queue)
      && (forall i :: 0 <= i < |r.value| ==> r.value[i] in cs)
      && forall e :: 1 <= e <= level ==>
           && (|r.value| >= Count(e) <==> forall p: nat :: p < Count(e) ==> Hit(cs, e, p))
           && (|r.value| >= Count(e) ==> Covers(r.value, e))
  }

  lemma {:induction false} LeadingBound(m: Mine, level: nat, out: seq<Replica>)
    requires Shaped(m) && 1 <= level <= 4 && Unused(m, level) && IsLeading(out, m.queue)
    ensures |out| <= Count(level)
  {
    SlotsOfDepth(level);
    assert Count(level) < QueueSize ==> m.queue[Count(level)].None?;
  }

  lemma {:induction false} MinerDone(root: seq<nat>, level: nat, addresses: seq<nat>, out: seq<Replica>)
    requires |root| == HashSize && 1 <= level <= 4 && forall i :: 0 <= i < |addresses| ==> addresses[i] < 256
    requires Bytes(Candidates(root, addresses))
    requires IsLeading(out, MineAll(Candidates(root, addresses), level).queue)
    ensures MinerResult(root, level, addresses, Some(out))
  {
    hide Mined, MineAll, Covers, Prefix, Count;
    var cs := Candidates(root, addresses);
    RunMined(cs, level);
    LeadingBound(MineAll(cs, level), level, out);
    forall e | 1 <= e <= level
      ensures Bytes(out)
      ensures |out| >= Count(e) <==> forall p: nat :: p < Count(e) ==> Hit(cs, e, p)
      ensures |out| >= Count(e) ==> Covers(out, e)
    {
      CoversIffHit(cs, level, out, e);
    }
    CoversIffHit(cs, level, out, 1);
    forall i | 0 <= i < |out| ensures out[i] in cs {
      assert MineAll(cs, level).queue[i].value in cs;
    }
  }

  method Replicas(root: seq<nat>, level: nat, addresses: seq<nat>) returns (r: Option<seq<Replica>>)
    requires level <= 4 && |addresses| == CandidateCount && forall i :: 0 <= i < |addresses| ==> addresses[i] < 256
    ensures MinerResult(root, level, addresses, r)
  {
    hide Mined, MineAll, Add, Covers, Prefix, Count, MinerResult, Start, Fits;
    if |root| != HashSize {
      assert MinerResult(root, level, addresses, None) by { MinerRefuses(root, level, addresses); }
      return None;
    }
    var target := ReplicaCount(level);
    if target == 0 {
      assert MinerResult(root, level, addresses, Some([])) by { MinerIdle(root, level, addresses); }
      return Some([]);
    }
    var queue := new Option<Replica>[QueueSize](_ => None);
    var existing := new bool[NeighborhoodCount](_ => false);
    var sizes := new nat[5](i => if 0 <= i < 5 then [0, 2, 4, 8, 16][i] else 0);
    var output: seq<Replica> := [];
    var k := 0;
    ghost var cs := Candidates(root, addresses);
    assert Bytes(cs);
    StartsEmpty(queue[..], existing[..], sizes[..], cs, level);
    while k < CandidateCount && |output| < target
      modifies queue, existing, sizes
      invariant k <= CandidateCount
      invariant queue.Length == QueueSize && existing.Length == NeighborhoodCount && sizes.Length == 5
      invariant MineOf(queue, existing, sizes) == MineAll(cs[..k], level)
      invariant IsLeading(output, queue[..])
    {
      var c := Replica(root[0 := k], addresses[k]);
      ghost var m := MineOf(queue, existing, sizes);
      NextCandidate(cs, level, k);
      var covered, offset := AddReplica(c, level, queue, existing, sizes);
      k := k + 1;
      if covered != 0 {
        output := Emit(queue, output);
      }
    }
    if k < CandidateCount {
      CoversIffHit(cs[..k], level, output, level);
      FullStays(cs, level, k);
    } else {
      assert cs[..k] == cs;
    }
    MinerDone(root, level, addresses, output);
    r := Some(output);
  }

  /** Appends the slots that have become contiguous with the output. */
  method Emit(queue: array<Option<Replica>>, emitted: seq<Replica>) returns (output: seq<Replica>)
    requires |emitted| <= queue.Length && forall i :: 0 <= i < |emitted| ==> queue[i] == Some(emitted[i])
    ensures IsLeading(output, queue[..]) && emitted <= output
  {
    output := emitted;
    while |output| < queue.Length && queue[|output|].Some?
      invariant |output| <= queue.Length && emitted <= output
      invariant forall i :: 0 <= i < |output| ==> queue[i] == Some(output[i])
    {
      output := output + [queue[|output|].value];
    }
  }

  lemma {:induction false} MinerRefuses(root: seq<nat>, level: nat, addresses: seq<nat>)
    requires level <= 4 && forall i :: 0 <= i < |addresses| ==> addresses[i] < 256
    requires |root| != HashSize
    ensures MinerResult(root, level, addresses, None)
  {}

  lemma {:induction false} MinerIdle(root: seq<nat>, level: nat, addresses: seq<nat>)
    requires level <= 4 && forall i :: 0 <= i < |addresses| ==> addresses[i] < 256
    requires |root| == HashSize && ReplicaCount(level) == 0
    ensures MinerResult(root, level, addresses, Some([]))
  {}

  lemma {:induction false} StartsEmpty(queue: seq<Option<Replica>>, existing: seq<bool>, sizes: seq<nat>, cs: seq<Replica>, level: nat)
    requires |queue| == QueueSize && |existing| == NeighborhoodCount && |sizes| == 5 && level <= 4 && Bytes(cs)
    requires forall i :: 0 <= i < QueueSize ==> queue[i] == None
    requires forall i :: 0 <= i < NeighborhoodCount ==> !existing[i]
    requires forall i :: 0 <= i < 5 ==> sizes[i] == [0, 2, 4, 8, 16][i]
    ensures Mine(queue, existing, sizes) == MineAll(cs[..0], level)
    ensures IsLeading([], queue)
  {
    assert cs[..0] == [];
    assert sizes == [0, 2, 4, 8, 16];
  }

  /** The next candidate fits, and never moves a queued replica. */
  lemma {:induction false} NextCandidate(cs: seq<Replica>, level: nat, k: nat)
    requires 1 <= level <= 4 && Bytes(cs) && k < |cs|
    ensures Fits(MineAll(cs[..k], level), cs[k], level)
    ensures var m, r := MineAll(cs[..k], level), Add(MineAll(cs[..k], level), cs[k], level);
            && r.mine == MineAll(cs[..k + 1], level)
            && (r.covered == 0 ==> r.mine == m)
            && forall s :: 0 <= s < QueueSize && m.queue[s].Some? ==> r.mine.queue[s] == m.queue[s]
  {
    hide Add, Prefix, Count, Mined;
    assert cs[..k + 1][..k] == cs[..k];
    RunMined(cs[..k], level);
    AddKeeps(MineAll(cs[..k], level), cs[k], level);
  }
}
