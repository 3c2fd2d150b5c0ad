/** Joining a byte range of a chunk tree: nodes are expanded and leaves copied
    into place as they arrive, in any order. */
module RangeJoin {
  import opened Options
  import opened ChunkLayout
  import opened Sums

  const MaxTreeLevels := 7

  datatype Chunk = Chunk(level: RedundancyLevel, span: Word, payload: seq<Octet>)

  /** What a reference resolves to, if it resolves at all. */
  type Store = seq<Octet> -> Option<Chunk>

  datatype Node = Node(start: nat, depth: nat, chunk: Chunk)

  /** A parent whose requested children have not all been delivered. */
  datatype Group = Group(start: nat, span: nat, depth: nat, capacity: nat, count: nat, waiting: seq<(nat, Chunk)>)

  ghost predicate ValidGroup(g: Group) {
    && g.capacity > 0
    && g.count >= 2
    && (g.count - 1) * g.capacity < g.span <= g.count * g.capacity
    && forall k :: 0 <= k < |g.waiting| ==> g.waiting[k].0 < g.count
  }

  function SlotStart(g: Group, i: nat): nat {
    g.start + g.capacity * i
  }

  /** How much of the parent's span child `i` may cover. */
  function SlotLimit(g: Group, i: nat): int {
    if i + 1 == g.count then g.span - g.capacity * i else g.capacity
  }

  lemma {:induction false} SlotInside(g: Group, i: nat)
    requires ValidGroup(g) && i < g.count
    ensures 1 <= SlotLimit(g, i) <= g.capacity < g.span
    ensures SlotStart(g, i) + SlotLimit(g, i) <= g.start + g.span
    ensures i + 1 < g.count ==> SlotStart(g, i) + SlotLimit(g, i) == SlotStart(g, i + 1)
  {
    assert g.capacity * (i + 1) == g.capacity * i + g.capacity;
    assert g.capacity * (g.count - 1) == (g.count - 1) * g.capacity;
    assert g.count * g.capacity == (g.count - 1) * g.capacity + g.capacity;
    if i + 1 < g.count {
      Product(i + 1, g.count - 1, g.capacity);
    }
    Product(1, g.count - 1, g.capacity);
  }

  // ----- Which positions are spoken for

  function NodeLoad(n: Node, p: int): int {
    if n.start <= p < n.start + n.chunk.span then 1 else 0
  }

  function SlotLoad(g: Group, i: nat, p: int): int {
    if SlotStart(g, i) <= p < SlotStart(g, i) + SlotLimit(g, i) then 1 else 0
  }

  function NodeLoads(pending: seq<Node>, p: int): (r: seq<int>)
    ensures |r| == |pending|
  {
    seq(|pending|, k requires 0 <= k < |pending| => NodeLoad(pending[k], p))
  }

  function WaitingLoads(g: Group, p: int): (r: seq<int>)
    ensures |r| == |g.waiting|
  {
    seq(|g.waiting|, k requires 0 <= k < |g.waiting| => SlotLoad(g, g.waiting[k].0, p))
  }

  function GroupLoad(g: Group, p: int): int {
    Sum(WaitingLoads(g, p))
  }

  function GroupLoads(groups: seq<Group>, p: int): (r: seq<int>)
    ensures |r| == |groups|
  {
    seq(|groups|, k requires 0 <= k < |groups| => GroupLoad(groups[k], p))
  }

  /** How many outstanding nodes and children cover position `p`. */
  function Load(pending: seq<Node>, groups: seq<Group>, p: int): int {
    Sum(NodeLoads(pending, p)) + Sum(GroupLoads(groups, p))
  }

  lemma {:induction false} LoadNonNegative(pending: seq<Node>, groups: seq<Group>, p: int)
    ensures Load(pending, groups, p) >= 0
  {
    SumNonNegative(NodeLoads(pending, p), 0);
    forall k | 0 <= k < |groups|
      ensures GroupLoads(groups, p)[k] >= 0
    {
      SumNonNegative(WaitingLoads(groups[k], p), 0);
    }
    SumNonNegative(GroupLoads(groups, p), 0);
  }

  lemma {:induction false} LoadPop(pending: seq<Node>, groups: seq<Group>, p: int)
    requires pending != []
    ensures Load(pending[1..], groups, p) == Load(pending, groups, p) - NodeLoad(pending[0], p)
  {
    SumWithout(NodeLoads(pending, p), 0);
    assert NodeLoads(pending[1..], p) == Without(NodeLoads(pending, p), 0);
  }

  lemma {:induction false} LoadPush(pending: seq<Node>, groups: seq<Group>, n: Node, p: int)
    ensures Load(pending + [n], groups, p) == Load(pending, groups, p) + NodeLoad(n, p)
  {
    SumAppend(NodeLoads(pending, p), NodeLoad(n, p));
    assert NodeLoads(pending + [n], p) == NodeLoads(pending, p) + [NodeLoad(n, p)];
  }

  lemma {:induction false} LoadLaunch(pending: seq<Node>, groups: seq<Group>, g: Group, p: int)
    ensures Load(pending, groups + [g], p) == Load(pending, groups, p) + GroupLoad(g, p)
  {
    SumAppend(GroupLoads(groups, p), GroupLoad(g, p));
    assert GroupLoads(groups + [g], p) == GroupLoads(groups, p) + [GroupLoad(g, p)];
  }

  lemma {:induction false} LoadFinish(pending: seq<Node>, groups: seq<Group>, k: nat, p: int)
    requires k < |groups| && groups[k].waiting == []
    ensures Load(pending, Without(groups, k), p) == Load(pending, groups, p)
  {
    SumWithout(GroupLoads(groups, p), k);
    assert GroupLoads(Without(groups, k), p) == Without(GroupLoads(groups, p), k);
    assert WaitingLoads(groups[k], p) == [];
  }

  /** The group after one of its children has been delivered. */
  function Delivered(g: Group, j: nat): Group
    requires j < |g.waiting|
  {
    g.(waiting := Without(g.waiting, j))
  }

  lemma {:induction false} LoadDeliver(pending: seq<Node>, groups: seq<Group>, k: nat, j: nat, p: int)
    requires k < |groups| && j < |groups[k].waiting|
    ensures Load(pending, groups[k := Delivered(groups[k], j)], p)
            == Load(pending, groups, p) - SlotLoad(groups[k], groups[k].waiting[j].0, p)
  {
    var g := groups[k];
    var g' := Delivered(g, j);
    SumWithout(WaitingLoads(g, p), j);
    assert WaitingLoads(g', p) == Without(WaitingLoads(g, p), j);
    SumUpdate(GroupLoads(groups, p), k, GroupLoad(g', p));
    assert GroupLoads(groups[k := g'], p) == GroupLoads(groups, p)[k := GroupLoad(g', p)];
  }

  // ----- Work left, for termination: spans shrink on the way down

  function NodeWeight(n: Node): int {
    if n.chunk.span == 0 then 1 else 8 * n.chunk.span - 5
  }

  function WaitingWeights(g: Group): (r: seq<int>)
    ensures |r| == |g.waiting|
  {
    seq(|g.waiting|, k requires 0 <= k < |g.waiting| => 8 * SlotLimit(g, g.waiting[k].0) - 4)
  }

  function GroupWeight(g: Group): int {
    1 + Sum(WaitingWeights(g))
  }

  function Weight(pending: seq<Node>, groups: seq<Group>): int {
    Sum(seq(|pending|, k requires 0 <= k < |pending| => NodeWeight(pending[k])))
    + Sum(seq(|groups|, k requires 0 <= k < |groups| => GroupWeight(groups[k])))
  }

  lemma {:induction false} WeightNonNegative(pending: seq<Node>, groups: seq<Group>)
    requires forall k :: 0 <= k < |groups| ==> ValidGroup(groups[k])
    ensures Weight(pending, groups) >= 0
  {
    SumNonNegative(seq(|pending|, k requires 0 <= k < |pending| => NodeWeight(pending[k])), 0);
    var weights := seq(|groups|, k requires 0 <= k < |groups| => GroupWeight(groups[k]));
    forall k | 0 <= k < |groups|
      ensures weights[k] >= 0
    {
      var g := groups[k];
      forall j | 0 <= j < |g.waiting|
        ensures WaitingWeights(g)[j] >= 0
      {
        SlotInside(g, g.waiting[j].0);
      }
      SumNonNegative(WaitingWeights(g), 0);
    }
    SumNonNegative(weights, 0);
  }

  lemma {:induction false} WeightPop(pending: seq<Node>, groups: seq<Group>)
    requires pending != []
    ensures Weight(pending[1..], groups) == Weight(pending, groups) - NodeWeight(pending[0])
  {
    var weights := seq(|pending|, k requires 0 <= k < |pending| => NodeWeight(pending[k]));
    var rest := pending[1..];
    SumWithout(weights, 0);
    assert seq(|rest|, k requires 0 <= k < |rest| => NodeWeight(rest[k])) == Without(weights, 0);
  }

  lemma {:induction false} WeightPush(pending: seq<Node>, groups: seq<Group>, n: Node)
    ensures Weight(pending + [n], groups) == Weight(pending, groups) + NodeWeight(n)
  {
    var weights := seq(|pending|, k requires 0 <= k < |pending| => NodeWeight(pending[k]));
    var more := pending + [n];
    SumAppend(weights, NodeWeight(n));
    assert seq(|more|, k requires 0 <= k < |more| => NodeWeight(more[k])) == weights + [NodeWeight(n)];
  }

  lemma {:induction false} WeightLaunch(pending: seq<Node>, groups: seq<Group>, g: Group)
    ensures Weight(pending, groups + [g]) == Weight(pending, groups) + GroupWeight(g)
  {
    var weights := seq(|groups|, k requires 0 <= k < |groups| => GroupWeight(groups[k]));
    var more := groups + [g];
    SumAppend(weights, GroupWeight(g));
    assert seq(|more|, k requires 0 <= k < |more| => GroupWeight(more[k])) == weights + [GroupWeight(g)];
  }

  lemma {:induction false} WeightFinish(pending: seq<Node>, groups: seq<Group>, k: nat)
    requires k < |groups| && groups[k].waiting == []
    ensures Weight(pending, Without(groups, k)) == Weight(pending, groups) - 1
  {
    var weights := seq(|groups|, i requires 0 <= i < |groups| => GroupWeight(groups[i]));
    var rest := Without(groups, k);
    SumWithout(weights, k);
    assert WaitingWeights(groups[k]) == [];
    assert seq(|rest|, i requires 0 <= i < |rest| => GroupWeight(rest[i])) == Without(weights, k);
  }

  lemma {:induction false} WeightDeliver(pending: seq<Node>, groups: seq<Group>, k: nat, j: nat)
    requires k < |groups| && j < |groups[k].waiting|
    ensures Weight(pending, groups[k := Delivered(groups[k], j)])
            == Weight(pending, groups) - (8 * SlotLimit(groups[k], groups[k].waiting[j].0) - 4)
  {
    var g := groups[k];
    var g' := Delivered(g, j);
    var weights := seq(|groups|, i requires 0 <= i < |groups| => GroupWeight(groups[i]));
    var groups' := groups[k := g'];
    SumWithout(WaitingWeights(g), j);
    assert WaitingWeights(g') == Without(WaitingWeights(g), j);
    SumUpdate(weights, k, GroupWeight(g'));
    assert seq(|groups'|, i requires 0 <= i < |groups'| => GroupWeight(groups'[i])) == weights[k := GroupWeight(g')];
  }

  // ----- A freshly launched group: consecutive children

  function SlotEnd(g: Group, i: nat): int {
    SlotStart(g, i) + SlotLimit(g, i)
  }

  ghost predicate Consecutive(g: Group, a: nat) {
    a + |g.waiting| <= g.count && forall k :: 0 <= k < |g.waiting| ==> g.waiting[k].0 == a + k
  }

  lemma {:induction false} ConsecutiveLoad(g: Group, a: nat, p: int)
    requires ValidGroup(g) && Consecutive(g, a)
    ensures GroupLoad(g, p) ==
            if g.waiting != [] && SlotStart(g, a) <= p < SlotEnd(g, a + |g.waiting| - 1) then 1 else 0
    decreases |g.waiting|
  {
    hide SlotLimit;
    if g.waiting != [] {
      var n := |g.waiting|;
      var shorter := g.(waiting := g.waiting[..n - 1]);
      ConsecutiveLoad(shorter, a, p);
      SameSlots(g, shorter);
      assert WaitingLoads(g, p)[..n - 1] == WaitingLoads(shorter, p);
      SlotInside(g, a + n - 1);
      if n > 1 {
        SlotInside(g, a + n - 2);
        ConsecutiveGrows(g, a, a + n - 1);
      }
    }
  }

  lemma {:induction false} SameSlots(g: Group, g': Group)
    requires g == g'.(waiting := g.waiting)
    ensures forall i: nat :: SlotStart(g, i) == SlotStart(g', i) && SlotLimit(g, i) == SlotLimit(g', i)
  {}

  lemma {:induction false} ConsecutiveGrows(g: Group, a: nat, b: nat)
    requires a <= b
    ensures SlotStart(g, a) <= SlotStart(g, b)
  {
    Product(a, b, g.capacity);
  }

  lemma {:induction false} ConsecutiveWeight(g: Group, a: nat)
    requires ValidGroup(g) && Consecutive(g, a)
    ensures Sum(WaitingWeights(g)) ==
            if g.waiting == [] then 0
            else 8 * (SlotEnd(g, a + |g.waiting| - 1) - SlotStart(g, a)) - 4 * |g.waiting|
    decreases |g.waiting|
  {
    hide SlotLimit;
    if g.waiting != [] {
      var n := |g.waiting|;
      var shorter := g.(waiting := g.waiting[..n - 1]);
      ConsecutiveWeight(shorter, a);
      SameSlots(g, shorter);
      assert WaitingWeights(g)[..n - 1] == WaitingWeights(shorter);
      SlotInside(g, a + n - 1);
      if n > 1 {
        SlotInside(g, a + n - 2);
      }
    }
  }

  lemma {:induction false} LaunchWeight(g: Group, a: nat)
    requires ValidGroup(g) && Consecutive(g, a) && g.waiting != []
    ensures GroupWeight(g) < 8 * g.span - 5
  {
    hide SlotLimit;
    ConsecutiveWeight(g, a);
    SlotInside(g, a);
    SlotInside(g, a + |g.waiting| - 1);
  }

  /** Children covering the wanted range cover exactly the node's part of it. */
  lemma {:induction false} LaunchLoad(g: Group, a: nat, low: nat, high: nat, p: int)
    requires ValidGroup(g) && Consecutive(g, a) && g.waiting != []
    requires a == FirstIndex(g, low)
    requires g.start <= high && a + |g.waiting| - 1 == LastIndex(g, high)
    ensures GroupLoad(g, p) <= if g.start <= p < g.start + g.span then 1 else 0
    ensures low <= p <= high ==> GroupLoad(g, p) == if g.start <= p < g.start + g.span then 1 else 0
  {
    hide SlotLimit;
    var b := a + |g.waiting| - 1;
    ConsecutiveLoad(g, a, p);
    SlotInside(g, a);
    SlotInside(g, b);
    Product(0, a, g.capacity);
    if low <= p <= high && g.start <= p < g.start + g.span {
      SlotAtOrBelow(g, (if low > g.start then low - g.start else 0), a, p);
      SlotBeyond(g, high - g.start, b, p);
    }
  }

  /** The child holding the first, and the last, wanted position. */
  function FirstIndex(g: Group, low: nat): nat
    requires g.capacity > 0 && g.count > 0
  {
    Min((if low > g.start then low - g.start else 0) / g.capacity, g.count - 1)
  }

  function LastIndex(g: Group, high: nat): nat
    requires g.capacity > 0 && g.count > 0 && g.start <= high
  {
    Min((high - g.start) / g.capacity, g.count - 1)
  }

  lemma {:induction false} IndicesOrdered(g: Group, low: nat, high: nat)
    requires g.capacity > 0 && g.count > 0 && g.start <= high && low <= high
    ensures FirstIndex(g, low) <= LastIndex(g, high) < g.count
  {
    DivisionMonotone(if low > g.start then low - g.start else 0, high - g.start, g.capacity);
  }

  lemma {:induction false} SameIndices(g: Group, g': Group, low: nat, high: nat)
    requires g.capacity > 0 && g.count > 0 && g.start <= high && g' == g.(waiting := g'.waiting)
    ensures FirstIndex(g', low) == FirstIndex(g, low) && LastIndex(g', high) == LastIndex(g, high)
  {}

  lemma {:induction false} SlotAtOrBelow(g: Group, relative: nat, a: nat, p: int)
    requires ValidGroup(g) && a == Min(relative / g.capacity, g.count - 1) && g.start + relative <= p
    ensures SlotStart(g, a) <= p
  {
    Product(a, relative / g.capacity, g.capacity);
    assert g.capacity * (relative / g.capacity) <= relative;
  }

  lemma {:induction false} SlotBeyond(g: Group, relative: nat, b: nat, p: int)
    requires ValidGroup(g) && b == Min(relative / g.capacity, g.count - 1) && p <= g.start + relative
    requires p < g.start + g.span
    ensures p < SlotEnd(g, b)
  {
    if b < g.count - 1 {
      assert relative < g.capacity * (relative / g.capacity) + g.capacity;
    }
  }

  // ----- Well-formed trees

  /** `chunk` is the root of a tree of at most `height` wrapper levels whose leaves
      spell `data`. */
  ghost predicate Represents(fetch: Store, encrypted: bool, chunk: Chunk, data: seq<Octet>, height: nat)
    decreases height
  {
    && |data| == chunk.span > 0
    && if chunk.span <= ChunkSize then |chunk.payload| >= chunk.span && data == chunk.payload[..chunk.span]
       else
         && height > 0
         && LayoutOf(chunk.span, chunk.level, encrypted).Some?
         && SplitReferences(chunk.payload, chunk.span, chunk.level, encrypted).Some?
         && var layout := LayoutOf(chunk.span, chunk.level, encrypted).value;
            var references := SplitReferences(chunk.payload, chunk.span, chunk.level, encrypted).value.0;
            |references| == layout.dataShards &&
            forall i :: 0 <= i < layout.dataShards ==>
              && fetch(references[i]).Some?
              && 0 <= ChildFrom(layout, i) <= ChildTo(layout, chunk.span, i) <= |data|
              && Represents(fetch, encrypted, fetch(references[i]).value,
                            data[ChildFrom(layout, i)..ChildTo(layout, chunk.span, i)], height - 1)
  }

  function ChildFrom(layout: Layout, i: nat): nat {
    layout.childCapacity * i
  }

  function ChildTo(layout: Layout, span: nat, i: nat): nat {
    if i + 1 == layout.dataShards then span else layout.childCapacity * i + layout.childCapacity
  }

  ghost predicate NodeTrue(fetch: Store, encrypted: bool, n: Node, data: seq<Octet>) {
    && n.depth <= MaxTreeLevels
    && n.start + n.chunk.span <= |data|
    && Represents(fetch, encrypted, n.chunk, data[n.start..n.start + n.chunk.span], MaxTreeLevels - n.depth)
  }

  ghost predicate ChildTrue(fetch: Store, encrypted: bool, g: Group, i: nat, c: Chunk, data: seq<Octet>) {
    && c.span == SlotLimit(g, i)
    && NodeTrue(fetch, encrypted, Node(SlotStart(g, i), g.depth + 1, c), data)
  }

  ghost predicate GroupTrue(fetch: Store, encrypted: bool, g: Group, data: seq<Octet>) {
    forall k :: 0 <= k < |g.waiting| ==> ChildTrue(fetch, encrypted, g, g.waiting[k].0, g.waiting[k].1, data)
  }

  /** The children of a well-formed node are well formed at their places. */
  lemma {:induction false} ChildrenTrue(fetch: Store, encrypted: bool, n: Node, data: seq<Octet>, g: Group, i: nat)
    requires NodeTrue(fetch, encrypted, n, data) && n.chunk.span > ChunkSize
    requires LayoutOf(n.chunk.span, n.chunk.level, encrypted).Some?
    requires var layout := LayoutOf(n.chunk.span, n.chunk.level, encrypted).value;
             && g.start == n.start && g.span == n.chunk.span && g.depth == n.depth
             && g.capacity == layout.childCapacity && g.count == layout.dataShards
    requires ValidGroup(g) && i < g.count
    ensures SplitReferences(n.chunk.payload, n.chunk.span, n.chunk.level, encrypted).Some?
    ensures var references := SplitReferences(n.chunk.payload, n.chunk.span, n.chunk.level, encrypted).value.0;
            && |references| == g.count
            && fetch(references[i]).Some?
            && ChildTrue(fetch, encrypted, g, i, fetch(references[i]).value, data)
  {
    hide LayoutOf, SplitReferences, Represents, SlotLimit, ValidGroup;
    var layout := LayoutOf(n.chunk.span, n.chunk.level, encrypted).value;
    var part := data[n.start..n.start + n.chunk.span];
    RepresentsChild(fetch, encrypted, n.chunk, part, MaxTreeLevels - n.depth, i);
    SlotInside(g, i);
    ChildPlace(g, layout, i);
    var from, to := ChildFrom(layout, i), ChildTo(layout, n.chunk.span, i);
    SliceOfSlice(data, n.start, n.start + n.chunk.span, from, to);
  }

  lemma {:induction false} SliceOfSlice(data: seq<Octet>, a: nat, b: nat, from: nat, to: nat)
    requires a <= b <= |data| && from <= to <= b - a
    ensures data[a..b][from..to] == data[a + from..a + to]
  {
    var x, y := data[a..b][from..to], data[a + from..a + to];
    assert |x| == |y|;
    forall k | 0 <= k < |x|
      ensures x[k] == y[k]
    {
      assert x[k] == data[a..b][from + k];
    }
  }

  lemma {:induction false} ChildPlace(g: Group, layout: Layout, i: nat)
    requires g.capacity == layout.childCapacity && g.count == layout.dataShards && i < g.count
    ensures SlotStart(g, i) == g.start + ChildFrom(layout, i)
    ensures SlotLimit(g, i) == ChildTo(layout, g.span, i) - ChildFrom(layout, i)
  {}

  lemma {:induction false} RepresentsChild(fetch: Store, encrypted: bool, chunk: Chunk, data: seq<Octet>, height: nat, i: nat)
    requires Represents(fetch, encrypted, chunk, data, height) && chunk.span > ChunkSize
    requires LayoutOf(chunk.span, chunk.level, encrypted).Some?
    requires i < LayoutOf(chunk.span, chunk.level, encrypted).value.dataShards
    ensures height > 0 && SplitReferences(chunk.payload, chunk.span, chunk.level, encrypted).Some?
    ensures var layout := LayoutOf(chunk.span, chunk.level, encrypted).value;
            var references := SplitReferences(chunk.payload, chunk.span, chunk.level, encrypted).value.0;
            var from, to := ChildFrom(layout, i), ChildTo(layout, chunk.span, i);
            && |references| == layout.dataShards
            && fetch(references[i]).Some?
            && from <= to <= |data|
            && fetch(references[i]).value.span == to - from
            && Represents(fetch, encrypted, fetch(references[i]).value, data[from..to], height - 1)
  {
    hide LayoutOf, SplitReferences;
  }

  // ----- The tree below the root

  /** The child of a node at an index, when the node's references resolve to one
      that its slot can take. */
  ghost function ChildOf(fetch: Store, encrypted: bool, n: Node, i: nat): Option<Node> {
    var layout := LayoutOf(n.chunk.span, n.chunk.level, encrypted);
    var split := SplitReferences(n.chunk.payload, n.chunk.span, n.chunk.level, encrypted);
    if n.chunk.span <= ChunkSize || layout.None? || split.None? || i >= |split.value.0| then None
    else
      var g := EmptyGroup(n, layout.value);
      var chunk := fetch(split.value.0[i]);
      if chunk.None? || chunk.value.span > SlotLimit(g, i) then None
      else Some(Node(SlotStart(g, i), n.depth + 1, chunk.value))
  }

  /** The node a path of child indices leads to. */
  ghost function NodeAt(fetch: Store, encrypted: bool, root: Chunk, path: seq<nat>): Option<Node> {
    if path == [] then Some(Node(0, 0, root))
    else
      var parent := NodeAt(fetch, encrypted, root, path[..|path| - 1]);
      if parent.None? then None else ChildOf(fetch, encrypted, parent.value, path[|path| - 1])
  }

  ghost predicate Reachable(fetch: Store, encrypted: bool, root: Chunk, n: Node) {
    exists path :: NodeAt(fetch, encrypted, root, path) == Some(n)
  }

  lemma {:induction false} RootReachable(fetch: Store, encrypted: bool, root: Chunk)
    ensures Reachable(fetch, encrypted, root, Node(0, 0, root))
  {
    assert NodeAt(fetch, encrypted, root, []) == Some(Node(0, 0, root));
  }

  lemma {:induction false} ChildReachable(fetch: Store, encrypted: bool, root: Chunk, n: Node, i: nat, c: Node)
    requires Reachable(fetch, encrypted, root, n) && ChildOf(fetch, encrypted, n, i) == Some(c)
    ensures Reachable(fetch, encrypted, root, c)
  {
    hide ChildOf;
    var path :| NodeAt(fetch, encrypted, root, path) == Some(n);
    assert (path + [i])[..|path|] == path;
    assert NodeAt(fetch, encrypted, root, path + [i]) == Some(c);
  }

  /** Every child a group waits for is in the tree, provided it fits its slot. */
  ghost predicate GroupReached(fetch: Store, encrypted: bool, root: Chunk, g: Group) {
    forall k :: 0 <= k < |g.waiting| && g.waiting[k].1.span <= SlotLimit(g, g.waiting[k].0) ==>
      Reachable(fetch, encrypted, root, ChildNode(g, k))
  }

  ghost predicate AllReached(fetch: Store, encrypted: bool, root: Chunk, s: Progress) {
    && (forall k :: 0 <= k < |s.pending| ==> Reachable(fetch, encrypted, root, s.pending[k]))
    && (forall k :: 0 <= k < |s.groups| ==> GroupReached(fetch, encrypted, root, s.groups[k]))
    && forall p :: p in s.writer ==> Reachable(fetch, encrypted, root, s.writer[p])
  }

  /** The group's children are the node's children. */
  ghost predicate ChildrenOf(fetch: Store, encrypted: bool, n: Node, g: Group) {
    forall k :: 0 <= k < |g.waiting| && g.waiting[k].1.span <= SlotLimit(g, g.waiting[k].0) ==>
      ChildOf(fetch, encrypted, n, g.waiting[k].0) == Some(ChildNode(g, k))
  }

  lemma {:induction false} LeafReached(fetch: Store, encrypted: bool, root: Chunk, s: Progress, low: nat, high: nat)
    requires AllReached(fetch, encrypted, root, s) && s.pending != []
    ensures AllReached(fetch, encrypted, root,
                       Progress(s.pending[1..], s.groups, WriterAfter(s.writer, s.pending[0], low, high)))
  {
    hide Reachable, GroupReached, Interval;
  }

  lemma {:induction false} LaunchReached(fetch: Store, encrypted: bool, root: Chunk, s: Progress, g: Group)
    requires AllReached(fetch, encrypted, root, s) && s.pending != [] && ChildrenOf(fetch, encrypted, s.pending[0], g)
    ensures AllReached(fetch, encrypted, root, Progress(s.pending[1..], s.groups + [g], s.writer))
  {
    hide Reachable, ChildOf, SlotLimit;
    assert GroupReached(fetch, encrypted, root, g) by {
      forall k | 0 <= k < |g.waiting| && g.waiting[k].1.span <= SlotLimit(g, g.waiting[k].0)
        ensures Reachable(fetch, encrypted, root, ChildNode(g, k))
      {
        ChildReachable(fetch, encrypted, root, s.pending[0], g.waiting[k].0, ChildNode(g, k));
      }
    }
    hide GroupReached;
  }

  lemma {:induction false} DeliverReached(fetch: Store, encrypted: bool, root: Chunk, s: Progress, k: nat, j: nat, pending: seq<Node>)
    requires AllReached(fetch, encrypted, root, s) && k < |s.groups| && j < |s.groups[k].waiting|
    requires s.groups[k].waiting[j].1.span <= SlotLimit(s.groups[k], s.groups[k].waiting[j].0)
    requires pending == s.pending || pending == s.pending + [ChildNode(s.groups[k], j)]
    ensures AllReached(fetch, encrypted, root, Progress(pending, s.groups[k := Delivered(s.groups[k], j)], s.writer))
  {
    hide Reachable, SlotLimit;
    var g, g' := s.groups[k], Delivered(s.groups[k], j);
    assert GroupReached(fetch, encrypted, root, g);
    forall i | 0 <= i < |g'.waiting| && g'.waiting[i].1.span <= SlotLimit(g', g'.waiting[i].0)
      ensures Reachable(fetch, encrypted, root, ChildNode(g', i))
    {
      var at := if i < j then i else i + 1;
      assert g'.waiting[i] == g.waiting[at];
      SlotLimitSame(g, g', g.waiting[at].0);
      assert ChildNode(g', i) == ChildNode(g, at);
    }
  }

  lemma {:induction false} SlotLimitSame(g: Group, g': Group, i: nat)
    requires g' == g.(waiting := g'.waiting)
    ensures SlotLimit(g', i) == SlotLimit(g, i)
  {}

  lemma {:induction false} FinishReached(fetch: Store, encrypted: bool, root: Chunk, s: Progress, k: nat)
    requires AllReached(fetch, encrypted, root, s) && k < |s.groups|
    ensures AllReached(fetch, encrypted, root, Progress(s.pending, Without(s.groups, k), s.writer))
  {
    hide Reachable, GroupReached;
  }

  // ----- The log of writes

  /** The positions from `a` up to `b`, in order. */
  ghost function Upwards(a: int, b: int): (r: seq<int>)
    ensures |r| == if a < b then b - a else 0
    ensures forall i :: 0 <= i < |r| ==> r[i] == a + i
    ensures forall p :: p in r <==> a <= p < b
    decreases b - a
  {
    if a < b then Upwards(a, b - 1) + [b - 1] else []
  }

  /** Every write hit a new position; the writers are known for exactly those. */
  ghost predicate WroteOnce(log: seq<int>, writer: map<int, Node>) {
    && (forall i, j :: 0 <= i < j < |log| ==> log[i] != log[j])
    && forall p :: p in log <==> p in writer
  }

  lemma {:induction false} NothingWritten()
    ensures WroteOnce([], map[])
  {}

  lemma {:induction false} LeafWroteOnce(log: seq<int>, writer: map<int, Node>, n: Node, low: nat, high: nat)
    requires low <= high && WroteOnce(log, writer) && Untouched(writer, n, low, high)
    ensures WroteOnce(log + Upwards(WantedFrom(n, low), WantedTo(n, high)), WriterAfter(writer, n, low, high))
  {
    hide WriterAfter, Upwards;
    WriterAfterFacts(writer, n, low, high);
    var more := Upwards(WantedFrom(n, low), WantedTo(n, high));
    forall i, j | 0 <= i < j < |log + more| ensures (log + more)[i] != (log + more)[j] {
      if i < |log| <= j {
        assert log[i] in log && more[j - |log|] in more;
      }
    }
  }

  // ----- What every step keeps

  /** The work lists, and which leaf wrote each position so far. */
  datatype Progress = Progress(pending: seq<Node>, groups: seq<Group>, writer: map<int, Node>)

  ghost predicate Placed(s: Progress, total: nat, low: nat, high: nat) {
    && (forall k :: 0 <= k < |s.pending| ==>
          s.pending[k].start + s.pending[k].chunk.span <= total && s.pending[k].start <= high)
    && (forall k :: 0 <= k < |s.groups| ==>
          ValidGroup(s.groups[k]) && s.groups[k].start + s.groups[k].span <= total)
    && forall p :: p in s.writer ==> low <= p <= high
  }

  function Claims(s: Progress, p: int): int {
    (if p in s.writer then 1 else 0) + Load(s.pending, s.groups, p)
  }

  /** No position is written, or still to be written, twice. */
  ghost predicate Exclusive(s: Progress) {
    forall p: int :: Claims(s, p) <= 1
  }

  /** Every wanted position is written or still to be written. */
  ghost predicate Covering(s: Progress, low: nat, high: nat) {
    forall p: int :: low <= p <= high ==> Claims(s, p) >= 1
  }

  ghost predicate Truthful(fetch: Store, encrypted: bool, s: Progress, data: seq<Octet>) {
    && (forall k :: 0 <= k < |s.pending| ==> NodeTrue(fetch, encrypted, s.pending[k], data))
    && forall k :: 0 <= k < |s.groups| ==> GroupTrue(fetch, encrypted, s.groups[k], data)
  }

  /** A step that never adds a claim, and keeps all claims on wanted positions. */
  ghost predicate Carries(s: Progress, s': Progress, low: nat, high: nat) {
    && (forall p: int :: Claims(s', p) <= Claims(s, p))
    && forall p: int :: low <= p <= high ==> Claims(s', p) == Claims(s, p)
  }

  lemma {:induction false} CarriesKeeps(s: Progress, s': Progress, low: nat, high: nat)
    requires Carries(s, s', low, high)
    ensures Exclusive(s) ==> Exclusive(s')
    ensures Covering(s, low, high) ==> Covering(s', low, high)
  {
    hide Claims;
  }

  // ----- Leaves

  /** The wanted part of a leaf: first position and one past the last. */
  function WantedFrom(n: Node, low: nat): nat {
    Max(n.start, low)
  }

  function WantedTo(n: Node, high: nat): nat {
    Min(n.start + n.chunk.span, high + 1)
  }

  ghost function Interval(a: int, b: int): (r: set<int>)
    ensures forall q :: q in r <==> a <= q < b
    decreases b - a
  {
    if a >= b then {} else Interval(a, b - 1) + {b - 1}
  }

  lemma {:induction false} IntervalSize(a: int, b: int)
    requires a <= b
    ensures |Interval(a, b)| == b - a
    decreases b - a
  {
    if a < b {
      IntervalSize(a, b - 1);
    }
  }

  /** No wanted position of the leaf has been written yet. */
  ghost predicate Untouched(writer: map<int, Node>, n: Node, low: nat, high: nat) {
    forall p :: p in writer ==> !(WantedFrom(n, low) <= p < WantedTo(n, high))
  }

  ghost function WriterAfter(writer: map<int, Node>, n: Node, low: nat, high: nat): map<int, Node> {
    map p | p in writer.Keys + Interval(WantedFrom(n, low), WantedTo(n, high)) :: if p in writer then writer[p] else n
  }

  lemma {:induction false} LeafCarries(s: Progress, s': Progress, low: nat, high: nat)
    requires s.pending != [] && s'.pending == s.pending[1..] && s'.groups == s.groups
    requires s'.writer == WriterAfter(s.writer, s.pending[0], low, high)
    requires Exclusive(s)
    ensures Carries(s, s', low, high)
    ensures Untouched(s.writer, s.pending[0], low, high)
  {
    hide Load, Interval;
    forall p: int
      ensures Claims(s', p) <= Claims(s, p)
      ensures low <= p <= high ==> Claims(s', p) == Claims(s, p)
      ensures p in s.writer ==> !(WantedFrom(s.pending[0], low) <= p < WantedTo(s.pending[0], high))
    {
      LoadPop(s.pending, s.groups, p);
      LoadNonNegative(s.pending[1..], s.groups, p);
      assert Claims(s, p) <= 1;
    }
  }

  /** Copies the wanted part of a leaf into place. */
  method CopyLeaf(buffer: array<Octet>, n: Node, offset: nat, low: nat, high: nat)
      returns (copied: Option<nat>, ghost log: seq<int>)
    requires low <= high && buffer.Length == offset + (high - low + 1)
    modifies buffer
    ensures copied.None? <==>
            (n.start + n.chunk.span == 0 ||
             (WantedFrom(n, low) < WantedTo(n, high) && |n.chunk.payload| < WantedTo(n, high) - n.start))
    ensures copied.None? ==> buffer[..] == old(buffer[..])
    ensures copied.Some? ==>
              copied.value == if WantedFrom(n, low) < WantedTo(n, high) then WantedTo(n, high) - WantedFrom(n, low) else 0
    ensures copied.Some? ==> CopiedInto(old(buffer[..]), buffer[..], offset, low, high, n)
    ensures copied.Some? ==> log == Upwards(WantedFrom(n, low), WantedTo(n, high))
  {
    log := [];
    if n.start + n.chunk.span == 0 {
      return None, log;
    }
    var leafEnd := n.start + n.chunk.span - 1;
    var copyStart, copyEnd := Max(n.start, low), Min(leafEnd, high);
    if copyStart > copyEnd {
      return Some(0), log;
    }
    var sourceStart := copyStart - n.start;
    var destinationStart := offset + (copyStart - low);
    var copyLength := copyEnd - copyStart + 1;
    if sourceStart + copyLength > |n.chunk.payload| {
      return None, log;
    }
    for i := 0 to copyLength
      invariant log == Upwards(copyStart, copyStart + i)
      invariant forall q :: 0 <= q < buffer.Length ==>
                  buffer[q] == if destinationStart <= q < destinationStart + i
                               then n.chunk.payload[q - destinationStart + sourceStart] else old(buffer[q])
    {
      buffer[destinationStart + i] := n.chunk.payload[sourceStart + i];
      log := log + [low + (destinationStart + i - offset)];
    }
    copied := Some(copyLength);
  }

  // ----- Groups

  lemma {:induction false} LaunchCarries(s: Progress, s': Progress, g: Group, a: nat, low: nat, high: nat)
    requires s.pending != [] && s'.pending == s.pending[1..] && s'.groups == s.groups + [g] && s'.writer == s.writer
    requires ValidGroup(g) && Consecutive(g, a) && g.waiting != []
    requires g.start == s.pending[0].start && g.span == s.pending[0].chunk.span
    requires a == FirstIndex(g, low)
    requires g.start <= high && a + |g.waiting| - 1 == LastIndex(g, high)
    ensures Carries(s, s', low, high)
  {
    hide Load, ValidGroup, Consecutive;
    forall p: int
      ensures Claims(s', p) <= Claims(s, p)
      ensures low <= p <= high ==> Claims(s', p) == Claims(s, p)
    {
      LoadPop(s.pending, s.groups, p);
      LoadLaunch(s'.pending, s.groups, g, p);
      LaunchLoad(g, a, low, high, p);
    }
  }

  /** The parent's group before any child has been asked for. */
  function EmptyGroup(n: Node, layout: Layout): Group {
    Group(n.start, n.chunk.span, n.depth, layout.childCapacity, layout.dataShards, [])
  }

  lemma {:induction false} EmptyGroupValid(n: Node, encrypted: bool)
    requires LayoutOf(n.chunk.span, n.chunk.level, encrypted).Some?
    ensures ValidGroup(EmptyGroup(n, LayoutOf(n.chunk.span, n.chunk.level, encrypted).value))
  {
    hide LayoutOf;
    LayoutTiles(n.chunk.span, n.chunk.level, encrypted);
  }

  /** Expands an intermediate node into a group of the children it needs. */
  method Launch(fetch: Store, encrypted: bool, n: Node, low: nat, high: nat)
      returns (launched: Option<Group>, ghost first: nat)
    requires n.chunk.span > ChunkSize && low <= high && n.start <= high
    ensures launched.Some? ==> var g := launched.value;
              && ValidGroup(g) && Consecutive(g, first) && g.waiting != []
              && g.start == n.start && g.span == n.chunk.span && g.depth == n.depth
              && first == FirstIndex(g, low) && first + |g.waiting| - 1 == LastIndex(g, high)
    ensures launched.Some? ==> ChildrenOf(fetch, encrypted, n, launched.value)
    ensures forall data :: NodeTrue(fetch, encrypted, n, data) ==>
                             launched.Some? && GroupTrue(fetch, encrypted, launched.value, data)
  {
    hide LayoutOf, SplitReferences, NodeTrue, ChildTrue, ChildrenOf;
    first := 0;
    var chunk := n.chunk;
    var layout := ReferenceLayout(chunk.span, chunk.level, encrypted);
    forall data | NodeTrue(fetch, encrypted, n, data)
      ensures layout.Some?
    {
      TrueHasLayout(fetch, encrypted, n, data);
    }
    if layout.None? {
      return None, first;
    }
    EmptyGroupValid(n, encrypted);
    SplitReferencesFacts(chunk.payload, chunk.span, chunk.level, encrypted);
    var empty := EmptyGroup(n, layout.value);
    var split := SplitReferences(chunk.payload, chunk.span, chunk.level, encrypted);
    forall data | NodeTrue(fetch, encrypted, n, data)
      ensures split.Some?
    {
      ChildrenTrue(fetch, encrypted, n, data, empty, 0);
    }
    if split.None? {
      return None, first;
    }
    forall data, i: nat | NodeTrue(fetch, encrypted, n, data) && i < empty.count
      ensures ResolvesTo(fetch, encrypted, empty, split.value.0, i, data)
    {
      ChildrenTrue(fetch, encrypted, n, data, empty, i);
    }
    launched, first := FillGroup(fetch, encrypted, n, empty, split.value.0, low, high);
    if launched.Some? {
      ResolvedChildren(fetch, encrypted, n, launched.value);
    }
  }

  lemma {:induction false} ResolvedChildren(fetch: Store, encrypted: bool, n: Node, g: Group)
    requires n.chunk.span > ChunkSize && LayoutOf(n.chunk.span, n.chunk.level, encrypted).Some?
    requires SplitReferences(n.chunk.payload, n.chunk.span, n.chunk.level, encrypted).Some?
    requires g == EmptyGroup(n, LayoutOf(n.chunk.span, n.chunk.level, encrypted).value).(waiting := g.waiting)
    requires Resolved(fetch, SplitReferences(n.chunk.payload, n.chunk.span, n.chunk.level, encrypted).value.0, g)
    ensures ChildrenOf(fetch, encrypted, n, g)
  {
    hide LayoutOf, SplitReferences, SlotLimit;
    var empty := EmptyGroup(n, LayoutOf(n.chunk.span, n.chunk.level, encrypted).value);
    forall k | 0 <= k < |g.waiting| && g.waiting[k].1.span <= SlotLimit(g, g.waiting[k].0)
      ensures ChildOf(fetch, encrypted, n, g.waiting[k].0) == Some(ChildNode(g, k))
    {
      SlotLimitSame(empty, g, g.waiting[k].0);
    }
  }

  /** What a group waits for is what its references resolve to. */
  ghost predicate Resolved(fetch: Store, references: seq<seq<Octet>>, g: Group) {
    forall k :: 0 <= k < |g.waiting| ==>
      g.waiting[k].0 < |references| && fetch(references[g.waiting[k].0]) == Some(g.waiting[k].1)
  }

  ghost predicate ResolvesTo(fetch: Store, encrypted: bool, g: Group, references: seq<seq<Octet>>, i: nat, data: seq<Octet>)
    requires |references| == g.count && i < g.count
  {
    fetch(references[i]).Some? && ChildTrue(fetch, encrypted, g, i, fetch(references[i]).value, data)
  }

  method FillGroup(fetch: Store, ghost encrypted: bool, ghost n: Node, empty: Group, references: seq<seq<Octet>>,
                   low: nat, high: nat) returns (launched: Option<Group>, ghost first: nat)
    requires ValidGroup(empty) && empty.waiting == [] && |references| == empty.count
    requires low <= high && empty.start <= high
    requires forall data, i: nat :: NodeTrue(fetch, encrypted, n, data) && i < empty.count ==>
               ResolvesTo(fetch, encrypted, empty, references, i, data)
    ensures launched.Some? ==> var g := launched.value;
              && ValidGroup(g) && Consecutive(g, first) && g.waiting != []
              && g == empty.(waiting := g.waiting)
              && Resolved(fetch, references, g)
              && first == FirstIndex(g, low) && first + |g.waiting| - 1 == LastIndex(g, high)
    ensures forall data :: NodeTrue(fetch, encrypted, n, data) ==>
                             launched.Some? && GroupTrue(fetch, encrypted, launched.value, data)
  {
    hide NodeTrue, ChildTrue, FirstIndex, LastIndex;
    var firstIndex, lastIndex := FirstIndex(empty, low), LastIndex(empty, high);
    IndicesOrdered(empty, low, high);
    first := firstIndex;
    var waiting: seq<(nat, Chunk)> := [];
    for i := firstIndex to lastIndex + 1
      invariant |waiting| == i - firstIndex
      invariant forall k :: 0 <= k < |waiting| ==>
                  waiting[k].0 == firstIndex + k && fetch(references[waiting[k].0]) == Some(waiting[k].1)
    {
      var child := fetch(references[i]);
      assert forall data :: NodeTrue(fetch, encrypted, n, data) ==> ResolvesTo(fetch, encrypted, empty, references, i, data);
      if child.None? {
        return None, first;
      }
      waiting := waiting + [(i, child.value)];
    }
    var g := empty.(waiting := waiting);
    SameIndices(empty, g, low, high);
    forall data | NodeTrue(fetch, encrypted, n, data)
      ensures GroupTrue(fetch, encrypted, g, data)
    {
      forall k | 0 <= k < |waiting|
        ensures ChildTrue(fetch, encrypted, g, waiting[k].0, waiting[k].1, data)
      {
        assert ResolvesTo(fetch, encrypted, empty, references, waiting[k].0, data);
        ChildTrueIgnoresWaiting(fetch, encrypted, empty, g, waiting[k].0, waiting[k].1, data);
      }
    }
    launched := Some(g);
  }

  lemma {:induction false} DivisionMonotone(a: nat, b: nat, c: nat)
    requires a <= b && c > 0
    ensures a / c <= b / c
  {
    var x, y := a / c, b / c;
    assert x * c <= a && b < y * c + c;
    Product(y + 1, x, c);
    assert (y + 1) * c == y * c + c;
  }

  lemma {:induction false} TrueHasLayout(fetch: Store, encrypted: bool, n: Node, data: seq<Octet>)
    requires NodeTrue(fetch, encrypted, n, data) && n.chunk.span > ChunkSize
    ensures LayoutOf(n.chunk.span, n.chunk.level, encrypted).Some?
  {
    hide LayoutOf, SplitReferences;
  }

  lemma {:induction false} ChildTrueIgnoresWaiting(fetch: Store, encrypted: bool, g: Group, g': Group, i: nat, c: Chunk, data: seq<Octet>)
    requires g' == g.(waiting := g'.waiting) && ChildTrue(fetch, encrypted, g, i, c, data)
    ensures ChildTrue(fetch, encrypted, g', i, c, data)
  {
    hide NodeTrue;
  }

  /** The node a delivered child becomes. */
  function ChildNode(g: Group, j: nat): Node
    requires j < |g.waiting|
  {
    Node(SlotStart(g, g.waiting[j].0), g.depth + 1, g.waiting[j].1)
  }

  /** Whether the child's slot meets the wanted range. */
  predicate MeetsRange(g: Group, i: nat, low: nat, high: nat) {
    SlotStart(g, i) <= high && SlotEnd(g, i) - 1 >= low
  }

  lemma {:induction false} DeliverCarries(s: Progress, s': Progress, k: nat, j: nat, low: nat, high: nat)
    requires k < |s.groups| && j < |s.groups[k].waiting| && s'.writer == s.writer
    requires var g := s.groups[k];
             var i := g.waiting[j].0;
             && g.waiting[j].1.span <= SlotLimit(g, i)
             && s'.groups == s.groups[k := Delivered(g, j)]
             && s'.pending == s.pending + if MeetsRange(g, i, low, high) then [ChildNode(g, j)] else []
    ensures forall p: int :: Claims(s', p) <= Claims(s, p)
    ensures s.groups[k].waiting[j].1.span == SlotLimit(s.groups[k], s.groups[k].waiting[j].0) ==> Carries(s, s', low, high)
  {
    hide Load;
    var g := s.groups[k];
    var i := g.waiting[j].0;
    forall p: int
      ensures Claims(s', p) <= Claims(s, p)
      ensures g.waiting[j].1.span == SlotLimit(g, i) && low <= p <= high ==> Claims(s', p) == Claims(s, p)
    {
      LoadDeliver(s'.pending, s.groups, k, j, p);
      if MeetsRange(g, i, low, high) {
        LoadPush(s.pending, s.groups, ChildNode(g, j), p);
      } else {
        assert s'.pending == s.pending;
      }
    }
  }

  lemma {:induction false} FinishCarries(s: Progress, s': Progress, k: nat, low: nat, high: nat)
    requires k < |s.groups| && s.groups[k].waiting == []
    requires s'.groups == Without(s.groups, k) && s'.pending == s.pending && s'.writer == s.writer
    ensures Carries(s, s', low, high)
  {
    hide Load;
    forall p: int
      ensures Claims(s', p) == Claims(s, p)
    {
      LoadFinish(s.pending, s.groups, k, p);
    }
  }

  // ----- The join

  /** The buffer holds the prefix, and each written position the byte of its leaf. */
  ghost predicate Holds(bytes: seq<Octet>, prefix: seq<Octet>, low: nat, high: nat, writer: map<int, Node>) {
    && low <= high
    && |bytes| == |prefix| + (high - low + 1)
    && (forall q :: 0 <= q < |prefix| ==> bytes[q] == prefix[q])
    && forall p :: p in writer ==> HoldsByte(bytes, |prefix|, low, high, p, writer[p])
  }

  ghost predicate HoldsByte(bytes: seq<Octet>, offset: nat, low: nat, high: nat, p: int, leaf: Node) {
    && low <= p <= high
    && leaf.start <= p < leaf.start + leaf.chunk.span <= leaf.start + ChunkSize
    && p - leaf.start < |leaf.chunk.payload|
    && offset + (p - low) < |bytes|
    && bytes[offset + (p - low)] == leaf.chunk.payload[p - leaf.start]
  }

  ghost predicate WritersTrue(fetch: Store, encrypted: bool, writer: map<int, Node>, data: seq<Octet>) {
    forall p :: p in writer ==> NodeTrue(fetch, encrypted, writer[p], data)
  }

  /** Everything the loop maintains when the tree is well formed. */
  ghost predicate Faithful(fetch: Store, encrypted: bool, s: Progress, low: nat, high: nat, data: seq<Octet>) {
    Covering(s, low, high) && Truthful(fetch, encrypted, s, data) && WritersTrue(fetch, encrypted, s.writer, data)
  }

  ghost predicate Sound(s: Progress, total: nat, low: nat, high: nat) {
    Placed(s, total, low, high) && Exclusive(s)
  }

  method ExpandLeaf(fetch: Store, encrypted: bool, buffer: array<Octet>, ghost s: Progress, n: Node, ghost prefix: seq<Octet>,
                    offset: nat, total: nat, low: nat, high: nat, ghost data: seq<Octet>)
      returns (copied: Option<nat>, ghost s': Progress, ghost log: seq<int>)
    requires low <= high && offset == |prefix| && Sound(s, total, low, high) && s.pending != [] && n == s.pending[0]
    requires n.chunk.span <= ChunkSize && Holds(buffer[..], prefix, low, high, s.writer)
    requires buffer.Length == offset + (high - low + 1)
    modifies buffer
    ensures copied.Some? ==> s' == Progress(s.pending[1..], s.groups, WriterAfter(s.writer, n, low, high))
    ensures copied.Some? ==> log == Upwards(WantedFrom(n, low), WantedTo(n, high)) && |log| == copied.value
    ensures copied.Some? ==> Untouched(s.writer, n, low, high)
    ensures copied.Some? ==> Sound(s', total, low, high) && Holds(buffer[..], prefix, low, high, s'.writer)
    ensures copied.Some? ==> |s'.writer| == |s.writer| + copied.value
    ensures Faithful(fetch, encrypted, s, low, high, data) ==>
              copied.Some? && Faithful(fetch, encrypted, s', low, high, data)
  {
    hide Claims, NodeTrue, Exclusive, Covering, Carries, GroupTrue, WriterAfter, Holds, CopiedInto, Upwards;
    s' := Progress(s.pending[1..], s.groups, WriterAfter(s.writer, n, low, high));
    LeafCarries(s, s', low, high);
    CarriesKeeps(s, s', low, high);
    WriterAfterFacts(s.writer, n, low, high);
    if Faithful(fetch, encrypted, s, low, high, data) {
      TrueLeaf(fetch, encrypted, n, data);
    }
    ghost var before := buffer[..];
    copied, log := CopyLeaf(buffer, n, offset, low, high);
    if copied.Some? {
      LeafHolds(before, buffer[..], prefix, low, high, s.writer, n);
    }
  }

  lemma {:induction false} WriterAfterFacts(writer: map<int, Node>, n: Node, low: nat, high: nat)
    requires low <= high
    ensures forall p :: p in WriterAfter(writer, n, low, high) <==>
                          p in writer || WantedFrom(n, low) <= p < WantedTo(n, high)
    ensures forall p :: p in WriterAfter(writer, n, low, high) ==>
                          WriterAfter(writer, n, low, high)[p] == if p in writer then writer[p] else n
    ensures Untouched(writer, n, low, high) ==>
              |WriterAfter(writer, n, low, high)| == |writer|
                + if WantedFrom(n, low) < WantedTo(n, high) then WantedTo(n, high) - WantedFrom(n, low) else 0
  {
    var from, to := WantedFrom(n, low), WantedTo(n, high);
    var after := WriterAfter(writer, n, low, high);
    hide Interval;
    assert after.Keys == writer.Keys + Interval(from, to);
    if from < to {
      IntervalSize(from, to);
    } else {
      assert Interval(from, to) == {};
    }
    if Untouched(writer, n, low, high) {
      assert writer.Keys !! Interval(from, to);
    }
  }

  /** The buffer after the copy, position by position. */
  ghost predicate CopiedInto(before: seq<Octet>, after: seq<Octet>, offset: nat, low: nat, high: nat, n: Node) {
    && |after| == |before|
    && (WantedFrom(n, low) < WantedTo(n, high) ==> |n.chunk.payload| >= WantedTo(n, high) - n.start)
    && forall q :: 0 <= q < |after| ==> after[q] == ByteAfter(before, offset, low, high, n, q)
  }

  function ByteAfter(before: seq<Octet>, offset: nat, low: nat, high: nat, n: Node, q: nat): Octet
    requires q < |before|
    requires WantedFrom(n, low) < WantedTo(n, high) ==> |n.chunk.payload| >= WantedTo(n, high) - n.start
  {
    if WantedFrom(n, low) <= q - offset + low < WantedTo(n, high)
    then n.chunk.payload[q - offset + low - n.start] else before[q]
  }

  lemma {:induction false} LeafHolds(before: seq<Octet>, after: seq<Octet>, prefix: seq<Octet>, low: nat, high: nat,
                  writer: map<int, Node>, n: Node)
    requires Holds(before, prefix, low, high, writer) && n.chunk.span <= ChunkSize
    requires CopiedInto(before, after, |prefix|, low, high, n)
    requires Untouched(writer, n, low, high)
    ensures Holds(after, prefix, low, high, WriterAfter(writer, n, low, high))
  {
    hide WriterAfter, ByteAfter;
    WriterAfterFacts(writer, n, low, high);
    var writer' := WriterAfter(writer, n, low, high);
    forall p | p in writer'
      ensures HoldsByte(after, |prefix|, low, high, p, writer'[p])
    {
      assert p in writer ==> HoldsByte(before, |prefix|, low, high, p, writer[p]);
      ByteAfterCases(before, |prefix|, low, high, n, |prefix| + (p - low));
    }
    forall q | 0 <= q < |prefix|
      ensures after[q] == prefix[q]
    {
      ByteAfterCases(before, |prefix|, low, high, n, q);
    }
  }

  lemma {:induction false} ByteAfterCases(before: seq<Octet>, offset: nat, low: nat, high: nat, n: Node, q: nat)
    requires q < |before|
    requires WantedFrom(n, low) < WantedTo(n, high) ==> |n.chunk.payload| >= WantedTo(n, high) - n.start
    ensures ByteAfter(before, offset, low, high, n, q) ==
            if WantedFrom(n, low) <= q - offset + low < WantedTo(n, high)
            then n.chunk.payload[q - offset + low - n.start] else before[q]
  {}

  lemma {:induction false} TrueLeaf(fetch: Store, encrypted: bool, n: Node, data: seq<Octet>)
    requires NodeTrue(fetch, encrypted, n, data) && n.chunk.span <= ChunkSize
    ensures 0 < n.chunk.span <= |n.chunk.payload|
    ensures forall p :: n.start <= p < n.start + n.chunk.span ==> n.chunk.payload[p - n.start] == data[p]
  {
    var part := data[n.start..n.start + n.chunk.span];
    assert part == n.chunk.payload[..n.chunk.span];
    forall p | n.start <= p < n.start + n.chunk.span
      ensures n.chunk.payload[p - n.start] == data[p]
    {
      assert part[p - n.start] == data[p];
    }
  }

  method ExpandNode(fetch: Store, encrypted: bool, pending: seq<Node>, groups: seq<Group>, ghost writer: map<int, Node>,
                    ghost total: nat, low: nat, high: nat, ghost data: seq<Octet>)
      returns (launched: Option<Group>)
    requires low <= high && Sound(Progress(pending, groups, writer), total, low, high)
    requires pending != [] && pending[0].chunk.span > ChunkSize
    ensures launched.Some? ==> Sound(Progress(pending[1..], groups + [launched.value], writer), total, low, high)
    ensures launched.Some? ==> Weight(pending[1..], groups + [launched.value]) < Weight(pending, groups)
    ensures launched.Some? ==> ChildrenOf(fetch, encrypted, pending[0], launched.value)
    ensures Faithful(fetch, encrypted, Progress(pending, groups, writer), low, high, data) ==>
              launched.Some? &&
              Faithful(fetch, encrypted, Progress(pending[1..], groups + [launched.value], writer), low, high, data)
  {
    hide Claims, NodeTrue, Exclusive, Covering, Carries, GroupTrue, Weight, ValidGroup, Consecutive, FirstIndex, LastIndex,
         WritersTrue, ChildrenOf;
    ghost var first;
    launched, first := Launch(fetch, encrypted, pending[0], low, high);
    if launched.Some? {
      ghost var s, s' := Progress(pending, groups, writer), Progress(pending[1..], groups + [launched.value], writer);
      LaunchCarries(s, s', launched.value, first, low, high);
      CarriesKeeps(s, s', low, high);
      WeightPop(pending, groups);
      WeightLaunch(pending[1..], groups, launched.value);
      LaunchWeight(launched.value, first);
    }
  }

  /** Receives one child of a group. */
  method Receive(fetch: Store, encrypted: bool, pending: seq<Node>, groups: seq<Group>, ghost writer: map<int, Node>,
                 ghost total: nat, low: nat, high: nat, k: nat, j: nat, ghost data: seq<Octet>)
      returns (received: Option<seq<Node>>)
    requires low <= high && Sound(Progress(pending, groups, writer), total, low, high)
    requires k < |groups| && j < |groups[k].waiting|
    ensures received.Some? ==>
              Sound(Progress(received.value, groups[k := Delivered(groups[k], j)], writer), total, low, high)
    ensures received.Some? ==> Weight(received.value, groups[k := Delivered(groups[k], j)]) < Weight(pending, groups)
    ensures received.Some? ==> groups[k].waiting[j].1.span <= SlotLimit(groups[k], groups[k].waiting[j].0)
    ensures received.Some? ==> received.value == pending || received.value == pending + [ChildNode(groups[k], j)]
    ensures Faithful(fetch, encrypted, Progress(pending, groups, writer), low, high, data) ==>
              received.Some? &&
              Faithful(fetch, encrypted, Progress(received.value, groups[k := Delivered(groups[k], j)], writer), low, high, data)
  {
    hide Claims, NodeTrue, Exclusive, Covering, Carries, Weight, SlotLimit, WritersTrue;
    var g := groups[k];
    var (i, chunk) := g.waiting[j];
    assert ValidGroup(g);
    SlotInside(g, i);
    assert Faithful(fetch, encrypted, Progress(pending, groups, writer), low, high, data) ==>
        ChildTrue(fetch, encrypted, g, i, chunk, data);
    if chunk.span > SlotLimit(g, i) {
      return None;
    }
    var pending' := pending + if MeetsRange(g, i, low, high) then [ChildNode(g, j)] else [];
    ghost var s := Progress(pending, groups, writer);
    ghost var s' := Progress(pending', groups[k := Delivered(g, j)], writer);
    DeliverCarries(s, s', k, j, low, high);
    FewerClaims(s, s');
    if Faithful(fetch, encrypted, s, low, high, data) {
      CarriesKeeps(s, s', low, high);
      DeliveredTrue(fetch, encrypted, g, j, data);
    }
    DeliveredValid(g, j);
    WeightDeliver(pending', groups, k, j);
    if MeetsRange(g, i, low, high) {
      WeightPush(pending, groups, ChildNode(g, j));
    } else {
      assert pending' == pending;
    }
    received := Some(pending');
  }

  lemma {:induction false} FewerClaims(s: Progress, s': Progress)
    requires Exclusive(s) && forall p: int :: Claims(s', p) <= Claims(s, p)
    ensures Exclusive(s')
  {
    hide Claims;
  }

  lemma {:induction false} DeliveredValid(g: Group, j: nat)
    requires ValidGroup(g) && j < |g.waiting|
    ensures ValidGroup(Delivered(g, j))
  {}

  lemma {:induction false} DeliveredTrue(fetch: Store, encrypted: bool, g: Group, j: nat, data: seq<Octet>)
    requires GroupTrue(fetch, encrypted, g, data) && j < |g.waiting|
    ensures GroupTrue(fetch, encrypted, Delivered(g, j), data)
  {
    hide NodeTrue;
    var g' := Delivered(g, j);
    forall k | 0 <= k < |g'.waiting|
      ensures ChildTrue(fetch, encrypted, g', g'.waiting[k].0, g'.waiting[k].1, data)
    {
      var from := if k < j then k else k + 1;
      assert g'.waiting[k] == g.waiting[from];
      ChildTrueIgnoresWaiting(fetch, encrypted, g, g', g.waiting[from].0, g.waiting[from].1, data);
    }
  }

  lemma {:induction false} StartSound(root: Chunk, low: nat, high: nat)
    requires low <= high < root.span
    ensures Sound(Progress([Node(0, 0, root)], [], map[]), root.span, low, high)
    ensures Covering(Progress([Node(0, 0, root)], [], map[]), low, high)
    ensures Weight([Node(0, 0, root)], []) >= 0
  {
    var s := Progress([Node(0, 0, root)], [], map[]);
    WeightNonNegative(s.pending, s.groups);
    forall p: int
      ensures Claims(s, p) == NodeLoad(s.pending[0], p)
    {
      LoadPush([], [], s.pending[0], p);
      assert [] + [s.pending[0]] == s.pending;
      assert NodeLoads([], p) == [] && GroupLoads([], p) == [];
    }
  }

  /** Once nothing is outstanding, the count of bytes written tells whether every
      wanted position has been written. */
  lemma {:induction false} CountDecides(s: Progress, total: nat, low: nat, high: nat)
    requires low <= high && s.pending == [] && s.groups == [] && Sound(s, total, low, high)
    ensures |s.writer| == high - low + 1 ==> s.writer.Keys == Interval(low, high + 1)
    ensures Covering(s, low, high) ==> |s.writer| == high - low + 1
  {
    hide Interval;
    IntervalSize(low, high + 1);
    assert s.writer.Keys <= Interval(low, high + 1);
    if |s.writer| == high - low + 1 {
      SubsetOfSameSize(s.writer.Keys, Interval(low, high + 1));
    }
    if Covering(s, low, high) {
      forall p | p in Interval(low, high + 1)
        ensures p in s.writer
      {
        assert NodeLoads([], p) == [] && GroupLoads([], p) == [];
        assert Claims(s, p) >= 1;
      }
      assert s.writer.Keys == Interval(low, high + 1);
    }
  }

  lemma {:induction false} SubsetOfSameSize(a: set<int>, b: set<int>)
    requires a <= b && |a| == |b|
    ensures a == b
  {
    assert |b - a| == |b| - |a|;
  }

  lemma {:induction false} HoldsSlice(fetch: Store, encrypted: bool, bytes: seq<Octet>, prefix: seq<Octet>, low: nat, high: nat,
                   writer: map<int, Node>, data: seq<Octet>)
    requires Holds(bytes, prefix, low, high, writer) && writer.Keys == Interval(low, high + 1)
    requires WritersTrue(fetch, encrypted, writer, data) && high < |data|
    ensures bytes == prefix + data[low..high + 1]
  {
    hide NodeTrue, Interval;
    var wanted := prefix + data[low..high + 1];
    forall q | 0 <= q < |bytes|
      ensures bytes[q] == wanted[q]
    {
      if q >= |prefix| {
        var p := q - |prefix| + low;
        assert p in writer;
        assert HoldsByte(bytes, |prefix|, low, high, p, writer[p]);
        TrueLeaf(fetch, encrypted, writer[p], data);
      }
    }
  }

  /** Joins positions `low` to `last` of the tree under `root` behind `prefix`.
      `turn` schedules the arrivals, `failing` says when the caller cancels or a
      group gives up; `data` is the payload, when the tree has one. */
  method JoinRange(fetch: Store, encrypted: bool, root: Chunk, low: nat, last: nat, prefix: seq<Octet>,
                   turn: nat -> (bool, nat, nat), failing: nat -> bool, ghost data: seq<Octet>)
      returns (output: Option<seq<Octet>>, ghost writer: map<int, Node>, ghost log: seq<int>)
    ensures low > last || low >= root.span ==> output == if failing(0) then None else Some(prefix)
    ensures WroteOnce(log, writer)
    ensures output.Some? && low <= last && low < root.span ==>
              var high := Min(last, root.span - 1);
              && Holds(output.value, prefix, low, high, writer)
              && writer.Keys == Interval(low, high + 1)
              && |log| == high - low + 1
              && forall p :: p in writer ==> Reachable(fetch, encrypted, root, writer[p])
    ensures Represents(fetch, encrypted, root, data, MaxTreeLevels) && low <= last && low < root.span && output.Some? ==>
              output.value == prefix + data[low..Min(last, root.span - 1) + 1]
    ensures Represents(fetch, encrypted, root, data, MaxTreeLevels) && (forall t :: !failing(t)) ==> output.Some?
  {
    hide Represents, NodeTrue, Weight, Holds, Sound, Interval, Faithful, AllReached, Reachable, WriterAfter, Upwards,
         WroteOnce, Untouched, ChildrenOf, SlotLimit;
    writer, log := map[], [];
    NothingWritten();
    if failing(0) {
      return None, writer, log;
    }
    if low > last || low >= root.span {
      return Some(prefix), writer, log;
    }
    var high := Min(last, root.span - 1);
    var offset := |prefix|;
    var buffer := new Octet[offset + (high - low + 1)](_ => 0);
    forall i | 0 <= i < offset {
      buffer[i] := prefix[i];
    }
    EmptyHolds(buffer[..], prefix, low, high);
    var pending, groups := [Node(0, 0, root)], [];
    var written, time := 0, 1;
    StartSound(root, low, high);
    StartReached(fetch, encrypted, root);
    ghost var genuine := Represents(fetch, encrypted, root, data, MaxTreeLevels);
    if genuine {
      StartFaithful(fetch, encrypted, root, low, high, data);
      RepresentsLength(fetch, encrypted, root, data);
    }
    while pending != [] || groups != []
      invariant Sound(Progress(pending, groups, writer), root.span, low, high)
      invariant Holds(buffer[..], prefix, low, high, writer) && written == |writer|
      invariant genuine ==> Faithful(fetch, encrypted, Progress(pending, groups, writer), low, high, data)
      invariant AllReached(fetch, encrypted, root, Progress(pending, groups, writer))
      invariant WroteOnce(log, writer) && |log| == written
      invariant Weight(pending, groups) >= 0
      decreases Weight(pending, groups)
    {
      if failing(time) {
        return None, writer, log;
      }
      var (expand, which, child) := turn(time);
      time := time + 1;
      if pending != [] && (expand || groups == []) {
        var n := pending[0];
        PendingFacts(fetch, encrypted, pending, groups, writer, root.span, low, high, data);
        if n.depth > MaxTreeLevels {
          return None, writer, log;
        }
        if n.chunk.span <= ChunkSize {
          var copied, s, more := ExpandLeaf(fetch, encrypted, buffer, Progress(pending, groups, writer), n, prefix, offset,
                                      root.span, low, high, data);
          if copied.None? {
            return None, writer, log;
          }
          WeightPop(pending, groups);
          LeafReached(fetch, encrypted, root, Progress(pending, groups, writer), low, high);
          LeafWroteOnce(log, writer, n, low, high);
          log := log + more;
          written, writer := written + copied.value, s.writer;
          pending := pending[1..];
          assert s == Progress(pending, groups, writer);
        } else {
          var launched := ExpandNode(fetch, encrypted, pending, groups, writer, root.span, low, high, data);
          if launched.None? {
            return None, writer, log;
          }
          LaunchReached(fetch, encrypted, root, Progress(pending, groups, writer), launched.value);
          pending, groups := pending[1..], groups + [launched.value];
        }
      } else {
        var k := which % |groups|;
        if groups[k].waiting == [] {
          FinishKeeps(fetch, encrypted, pending, groups, writer, root.span, low, high, k, data);
          FinishReached(fetch, encrypted, root, Progress(pending, groups, writer), k);
          WeightFinish(pending, groups, k);
          groups := Without(groups, k);
        } else {
          var j := child % |groups[k].waiting|;
          var received := Receive(fetch, encrypted, pending, groups, writer, root.span, low, high, k, j, data);
          if received.None? {
            return None, writer, log;
          }
          DeliverReached(fetch, encrypted, root, Progress(pending, groups, writer), k, j, received.value);
          pending, groups := received.value, groups[k := Delivered(groups[k], j)];
        }
      }
      SoundWeight(pending, groups, writer, root.span, low, high);
    }
    Finished(fetch, encrypted, buffer[..], prefix, writer, root.span, low, high, data);
    if written != high - low + 1 {
      return None, writer, log;
    }
    output := Some(buffer[..]);
    WritersReached(fetch, encrypted, root, writer);
    if genuine {
      RepresentsLength(fetch, encrypted, root, data);
    }
  }

  lemma {:induction false} StartReached(fetch: Store, encrypted: bool, root: Chunk)
    ensures AllReached(fetch, encrypted, root, Progress([Node(0, 0, root)], [], map[]))
  {
    hide Reachable;
    RootReachable(fetch, encrypted, root);
  }

  lemma {:induction false} WritersReached(fetch: Store, encrypted: bool, root: Chunk, writer: map<int, Node>)
    requires AllReached(fetch, encrypted, root, Progress([], [], writer))
    ensures forall p :: p in writer ==> Reachable(fetch, encrypted, root, writer[p])
  {
    hide Reachable;
  }

  lemma {:induction false} EmptyHolds(bytes: seq<Octet>, prefix: seq<Octet>, low: nat, high: nat)
    requires low <= high && |bytes| == |prefix| + (high - low + 1)
    requires forall i :: 0 <= i < |prefix| ==> bytes[i] == prefix[i]
    ensures Holds(bytes, prefix, low, high, map[])
  {}

  lemma {:induction false} StartFaithful(fetch: Store, encrypted: bool, root: Chunk, low: nat, high: nat, data: seq<Octet>)
    requires low <= high < root.span && Represents(fetch, encrypted, root, data, MaxTreeLevels)
    ensures Faithful(fetch, encrypted, Progress([Node(0, 0, root)], [], map[]), low, high, data)
  {
    StartSound(root, low, high);
    hide Covering;
    RepresentsLength(fetch, encrypted, root, data);
    assert data[0..0 + root.span] == data;
  }

  lemma {:induction false} RepresentsLength(fetch: Store, encrypted: bool, root: Chunk, data: seq<Octet>)
    requires Represents(fetch, encrypted, root, data, MaxTreeLevels)
    ensures |data| == root.span
  {}

  lemma {:induction false} PendingFacts(fetch: Store, encrypted: bool, pending: seq<Node>, groups: seq<Group>, writer: map<int, Node>,
                     total: nat, low: nat, high: nat, data: seq<Octet>)
    requires pending != [] && Sound(Progress(pending, groups, writer), total, low, high)
    ensures pending[0].start <= high
    ensures Faithful(fetch, encrypted, Progress(pending, groups, writer), low, high, data) ==>
              pending[0].depth <= MaxTreeLevels
  {
    hide Exclusive, Covering, Represents;
  }

  lemma {:induction false} FinishKeeps(fetch: Store, encrypted: bool, pending: seq<Node>, groups: seq<Group>, writer: map<int, Node>,
                    total: nat, low: nat, high: nat, k: nat, data: seq<Octet>)
    requires k < |groups| && groups[k].waiting == [] && Sound(Progress(pending, groups, writer), total, low, high)
    ensures Sound(Progress(pending, Without(groups, k), writer), total, low, high)
    ensures Faithful(fetch, encrypted, Progress(pending, groups, writer), low, high, data) ==>
              Faithful(fetch, encrypted, Progress(pending, Without(groups, k), writer), low, high, data)
  {
    hide Exclusive, Covering, Carries, GroupTrue, NodeTrue, ValidGroup;
    var s, s' := Progress(pending, groups, writer), Progress(pending, Without(groups, k), writer);
    FinishCarries(s, s', k, low, high);
    CarriesKeeps(s, s', low, high);
  }

  lemma {:induction false} SoundWeight(pending: seq<Node>, groups: seq<Group>, writer: map<int, Node>, total: nat, low: nat, high: nat)
    requires Sound(Progress(pending, groups, writer), total, low, high)
    ensures Weight(pending, groups) >= 0
  {
    hide Exclusive, ValidGroup, Weight;
    WeightNonNegative(pending, groups);
  }

  lemma {:induction false} Finished(fetch: Store, encrypted: bool, bytes: seq<Octet>, prefix: seq<Octet>, writer: map<int, Node>,
                 total: nat, low: nat, high: nat, data: seq<Octet>)
    requires low <= high && Sound(Progress([], [], writer), total, low, high) && Holds(bytes, prefix, low, high, writer)
    ensures |writer| == high - low + 1 ==> writer.Keys == Interval(low, high + 1)
    ensures Faithful(fetch, encrypted, Progress([], [], writer), low, high, data) ==> |writer| == high - low + 1
    ensures Faithful(fetch, encrypted, Progress([], [], writer), low, high, data) && high < |data| ==>
              bytes == prefix + data[low..high + 1]
  {
    hide Sound, Holds, Interval, WritersTrue, Covering;
    CountDecides(Progress([], [], writer), total, low, high);
    if Faithful(fetch, encrypted, Progress([], [], writer), low, high, data) && high < |data| {
      HoldsSlice(fetch, encrypted, bytes, prefix, low, high, writer, data);
    }
  }
}
