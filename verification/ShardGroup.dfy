/** The books of one shard group: which shards are asked for, which have arrived,
    which children have been handed on; and what each elementary change keeps. */
module ShardGroup {
  import opened Options
  import opened GaloisField
  import opened Elimination
  import opened ReedSolomon

  /** What is fetched: data and parity shards, of which some data shards are wanted. */
  datatype Plan = Plan(dataCount: nat, parityCount: nat, requested: seq<nat>)

  function Total(p: Plan): nat { p.dataCount + p.parityCount }

  predicate Fair(p: Plan) {
    && 0 < p.dataCount
    && Total(p) <= 256
    && (forall k :: 0 <= k < |p.requested| ==> p.requested[k] < p.dataCount)
    && (forall j, k :: 0 <= j < k < |p.requested| ==> p.requested[j] != p.requested[k])
  }

  /** A delivery: empty when the fetch failed; `decodes` tells whether a child
      can be read from it. */
  datatype Reply = Reply(index: nat, chunk: seq<Byte>, canonical: bool, decodes: bool)

  predicate Sized(chunk: seq<Byte>) {
    SpanSize <= |chunk| <= ChunkWithSpanSize
  }

  datatype Group = Group(
    sent: seq<bool>, ready: seq<bool>, received: seq<Option<seq<Byte>>>,
    successes: nat, dispatched: nat, completed: nat, recovering: bool,
    asked: seq<nat>, outstanding: set<nat>, emitted: seq<nat>)

  // ----- What the books keep

  ghost predicate Lengths(p: Plan, g: Group) {
    |g.sent| == Total(p) && |g.ready| == p.dataCount && |g.received| == Total(p)
  }

  /** No shard was asked for twice, and `dispatched` counts the askings. */
  ghost predicate AskedOnce(g: Group) {
    && g.dispatched == |g.asked|
    && (forall j, k :: 0 <= j < k < |g.asked| ==> g.asked[j] != g.asked[k])
    && (forall i :: i in g.asked ==> i < |g.sent| && g.sent[i])
  }

  /** Every fetch under way was asked for once and has not answered. */
  ghost predicate Owed(g: Group) {
    && g.completed <= g.dispatched
    && |g.outstanding| == g.dispatched - g.completed
    && forall i :: i in g.outstanding ==>
         i < |g.sent| && i < |g.received| && g.sent[i] && g.received[i].None?
  }

  ghost predicate Arrived(g: Group) {
    && |g.received| == |g.sent|
    && (forall i :: 0 <= i < |g.received| && g.received[i].Some? ==> g.sent[i] && Sized(g.received[i].value))
    && g.successes == |Present(g.received)|
  }

  /** The children handed on are the ready ones, each once, all of them requested. */
  ghost predicate HandedOnce(p: Plan, g: Group) {
    && (forall j, k :: 0 <= j < k < |g.emitted| ==> g.emitted[j] != g.emitted[k])
    && (forall i :: i in g.emitted ==> i in p.requested && i < |g.ready| && g.ready[i])
    && (forall i :: 0 <= i < |g.ready| && g.ready[i] ==> i in g.emitted)
  }

  /** A wanted shard that has arrived has been handed on. */
  ghost predicate HandedOn(p: Plan, g: Group) {
    && HandedOnce(p, g)
    && (forall i :: 0 <= i < |g.ready| && i < |g.received| && i in p.requested && g.received[i].Some? ==> g.ready[i])
  }

  /** What holds even of a group that was given up. */
  ghost predicate Accounted(p: Plan, g: Group) {
    HandedOnce(p, g) && AskedOnce(g) && |g.sent| == Total(p)
  }

  ghost predicate Sound(p: Plan, g: Group) {
    && Fair(p)
    && Lengths(p, g)
    && AskedOnce(g)
    && Owed(g)
    && Arrived(g)
    && HandedOn(p, g)
    && (g.recovering ==> p.parityCount > 0)
  }

  function Empty(p: Plan): Group {
    Group(seq(Total(p), _ => false), seq(p.dataCount, _ => false), seq(Total(p), _ => None),
          0, 0, 0, false, [], {}, [])
  }

  // ----- Elementary changes

  function Dispatched(g: Group, i: nat): Group
    requires i < |g.sent|
  {
    g.(sent := g.sent[i := true], dispatched := g.dispatched + 1, asked := g.asked + [i],
       outstanding := g.outstanding + {i})
  }

  /** A child known from the cache is handed on. */
  function HandOn(g: Group, i: nat): Group
    requires i < |g.ready|
  {
    g.(ready := g.ready[i := true], emitted := g.emitted + [i])
  }

  /** A cached raw shard counts as received. */
  function Hold(g: Group, i: nat, raw: seq<Byte>): Group
    requires i < |g.sent| == |g.received|
  {
    g.(sent := g.sent[i := true], received := g.received[i := Some(raw)], successes := g.successes + 1)
  }

  predicate Usable(p: Plan, r: Reply) {
    r.chunk != [] && (r.canonical || p.parityCount == 0)
  }

  predicate Wanted(p: Plan, g: Group, i: nat) {
    i < |g.ready| && i in p.requested && !g.ready[i]
  }

  function Answered(g: Group, i: nat): Group {
    g.(completed := g.completed + 1, outstanding := g.outstanding - {i})
  }

  function Arrives(g: Group, i: nat, chunk: seq<Byte>): Group
    requires i < |g.received|
  {
    g.(received := g.received[i := Some(chunk)], successes := g.successes + 1)
  }

  /** A reply is settled; nothing comes of it when a wanted child cannot be read. */
  function Settled(p: Plan, g: Group, r: Reply): Option<Group>
    requires r.index < |g.received|
  {
    var answered := Answered(g, r.index);
    if !Usable(p, r) then Some(answered)
    else
      var arrived := Arrives(answered, r.index, r.chunk);
      if !Wanted(p, g, r.index) then Some(arrived)
      else if r.decodes then Some(HandOn(arrived, r.index))
      else None
  }

  // ----- Counting what is present

  lemma {:induction false} PresentSame(a: seq<Option<Shard>>, b: seq<Option<Shard>>)
    requires |a| == |b| && forall i :: 0 <= i < |a| ==> (a[i].Some? <==> b[i].Some?)
    ensures Present(a) == Present(b)
    decreases |a|
  {
    if |a| > 0 {
      PresentSame(a[..|a| - 1], b[..|b| - 1]);
    }
  }

  lemma {:induction false} PresentAdd(s: seq<Option<Shard>>, i: nat, v: Shard)
    requires i < |s| && s[i].None?
    ensures |Present(s[i := Some(v)])| == |Present(s)| + 1
    decreases |s|
  {
    var t := s[i := Some(v)];
    var last := |s| - 1;
    if i < last {
      assert t[..last] == s[..last][i := Some(v)];
      PresentAdd(s[..last], i, v);
    } else {
      assert t[..last] == s[..last];
    }
  }

  // ----- Every change keeps the books

  lemma {:induction false} EmptySound(p: Plan)
    requires Fair(p)
    ensures Sound(p, Empty(p))
  {
    hide Present;
    NonePresent(Empty(p).received);
  }

  lemma {:induction false} AskedOnceMore(g: Group, i: nat)
    requires AskedOnce(g) && i < |g.sent| && !g.sent[i]
    ensures AskedOnce(Dispatched(g, i))
  {
    var h := Dispatched(g, i);
    assert i !in g.asked;
    forall j, k | 0 <= j < k < |h.asked| ensures h.asked[j] != h.asked[k] {
      assert j < |g.asked| && h.asked[j] in g.asked;
    }
  }

  lemma {:induction false} DispatchSound(p: Plan, g: Group, i: nat)
    requires Sound(p, g) && i < Total(p) && !g.sent[i]
    ensures Sound(p, Dispatched(g, i))
  {
    hide Present, HandedOn, AskedOnce;
    var h := Dispatched(g, i);
    assert i !in g.outstanding;
    assert AskedOnce(h) by { AskedOnceMore(g, i); }
    assert HandedOn(p, h) by { HandedOnSame(p, g, h); }
  }

  lemma {:induction false} HandedOnSame(p: Plan, g: Group, h: Group)
    requires HandedOn(p, g) && h.ready == g.ready && h.received == g.received && h.emitted == g.emitted
    ensures HandedOn(p, h)
  {}

  lemma {:induction false} HandOnSound(p: Plan, g: Group, i: nat)
    requires Sound(p, g) && Wanted(p, g, i)
    ensures Sound(p, HandOn(g, i))
  {
    hide Present, Fair;
    var h := HandOn(g, i);
    assert i !in g.emitted;
    forall j, k | 0 <= j < k < |h.emitted| ensures h.emitted[j] != h.emitted[k] {
      assert j < |g.emitted| && h.emitted[j] in g.emitted;
    }
  }

  lemma {:induction false} HoldSound(p: Plan, g: Group, i: nat, raw: seq<Byte>)
    requires Sound(p, g) && i < p.dataCount && g.ready[i] && !g.sent[i] && Sized(raw)
    ensures Sound(p, Hold(g, i, raw))
  {
    hide Present, Fair;
    assert g.received[i].None?;
    PresentAdd(g.received, i, raw);
    assert i !in g.outstanding;
  }

  lemma {:induction false} AnsweredSound(p: Plan, g: Group, i: nat)
    requires Sound(p, g) && i in g.outstanding
    ensures Sound(p, Answered(g, i))
  {
    hide Present, Fair, HandedOn;
    HandedOnSame(p, g, Answered(g, i));
  }

  lemma {:induction false} ArrivesSound(p: Plan, g: Group, i: nat, chunk: seq<Byte>)
    requires Sound(p, g) && i < Total(p) && g.sent[i] && g.received[i].None? && i !in g.outstanding && Sized(chunk)
    requires i < p.dataCount && i in p.requested ==> g.ready[i]
    ensures Sound(p, Arrives(g, i, chunk))
  {
    hide Present, Fair;
    PresentAdd(g.received, i, chunk);
  }

  /** A reply keeps the books whatever it brings. */
  lemma {:induction false} SettleSound(p: Plan, g: Group, r: Reply)
    requires Sound(p, g) && r.index in g.outstanding && (r.chunk == [] || Sized(r.chunk))
    requires Settled(p, g, r).Some?
    ensures Sound(p, Settled(p, g, r).value)
  {
    hide Present, Fair, HandedOn, Arrived;
    assert r.index < Total(p) && g.sent[r.index] && g.received[r.index].None?;
    var answered := Answered(g, r.index);
    AnsweredSound(p, g, r.index);
    if Usable(p, r) {
      if Wanted(p, g, r.index) {
        var handed := HandOn(answered, r.index);
        HandOnSound(p, answered, r.index);
        ArrivesSound(p, handed, r.index, r.chunk);
        assert Arrives(handed, r.index, r.chunk) == Settled(p, g, r).value;
      } else {
        ArrivesSound(p, answered, r.index, r.chunk);
      }
    }
  }

  /** The same books but for new askings. */
  ghost predicate OnlyAsked(g: Group, h: Group) {
    && h == g.(sent := h.sent, dispatched := h.dispatched, asked := h.asked, outstanding := h.outstanding)
    && |h.sent| == |g.sent|
    && g.dispatched <= h.dispatched
    && g.asked <= h.asked
    && g.outstanding <= h.outstanding
    && (forall i :: 0 <= i < |g.sent| && g.sent[i] ==> h.sent[i])
    && (forall i :: 0 <= i < |g.sent| && h.sent[i] && !g.sent[i] ==> i in h.outstanding)
  }

  lemma {:induction false} OnlyAskedMore(g: Group, h: Group, i: nat)
    requires OnlyAsked(g, h) && i < |h.sent|
    ensures OnlyAsked(g, Dispatched(h, i))
  {}

  lemma {:induction false} OnlyAskedTrans(f: Group, g: Group, h: Group)
    requires OnlyAsked(f, g) && OnlyAsked(g, h)
    ensures OnlyAsked(f, h)
  {}

  /** Every shard of a range has been asked for or is held. */
  ghost predicate AllSent(g: Group, low: nat, high: nat) {
    high <= |g.sent| && forall i :: low <= i < high ==> g.sent[i]
  }

  predicate AllReady(p: Plan, g: Group) {
    forall k :: 0 <= k < |p.requested| ==> p.requested[k] < |g.ready| && g.ready[p.requested[k]]
  }

  /** Every wanted shard is ready or has been asked for. */
  ghost predicate NoneForgotten(p: Plan, g: Group) {
    forall i :: i in p.requested ==> i < |g.ready| && i < |g.sent| && (g.ready[i] || g.sent[i])
  }

  // ----- Rebuilding

  function ZeroBytes(n: nat): (r: seq<Byte>)
    ensures |r| == n
  {
    seq(n, _ => Zero)
  }

  /** A shard filled up with zeros to the size of a full chunk. */
  function Padded(chunk: seq<Byte>): (r: Option<Shard>)
    ensures r.Some? <==> Sized(chunk)
    ensures r.Some? ==> |r.value| == ChunkWithSpanSize && chunk <= r.value
  {
    if Sized(chunk) then Some(chunk + ZeroBytes(ChunkWithSpanSize - |chunk|)) else None
  }

  function PaddedAll(received: seq<Option<seq<Byte>>>): (r: seq<Option<Shard>>)
    ensures |r| == |received|
    ensures forall i :: 0 <= i < |r| ==> r[i] == if received[i].Some? then Padded(received[i].value) else None
  {
    seq(|received|, i requires 0 <= i < |received| => if received[i].Some? then Padded(received[i].value) else None)
  }

  /** Once enough shards are there, rebuilding meets no bad count, no bad size and
      no shortage: it succeeds. */
  lemma {:induction false} RebuildingSucceeds(p: Plan, g: Group, missing: seq<nat>)
    requires Sound(p, g) && g.recovering && g.successes >= p.dataCount
    requires forall i :: i in missing ==> i < p.dataCount
    ensures Verdict(PaddedAll(g.received), p.dataCount, missing).Done?
  {
    hide Present, HandedOn, Owed, AskedOnce, Padded;
    var shards := PaddedAll(g.received);
    PresentSame(g.received, shards);
    assert EvenlySized(shards, ChunkWithSpanSize);
    assert forall t :: 0 <= t < |missing| ==> missing[t] in missing;
  }

  /** A wanted shard is missing from the received ones. */
  lemma {:induction false} WantedMissing(p: Plan, g: Group, missing: seq<nat>, i: nat)
    requires Sound(p, g) && Wanted(p, g, i) && i in missing
    ensures Missing(PaddedAll(g.received), p.dataCount, missing, i)
  {
    hide Present, Owed, AskedOnce, Padded;
  }
}
