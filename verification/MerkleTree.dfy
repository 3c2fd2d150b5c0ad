/** The binary Merkle tree over one chunk, for an arbitrary hash function. */
module MerkleTree {
  import opened Options

  const SectionSize := 32
  const PairSize := 64
  const LeafCount := 64
  const LevelCount := 7

  type Hash = h: seq<Octet> | |h| == SectionSize witness seq(SectionSize, _ => 0)

  type Keccak = seq<Octet> -> Hash

  // ----- The full tree: 64 leaves of 64 bytes, zero padded

  function Padded(content: seq<Octet>): (r: seq<Octet>)
    requires |content| <= ChunkSize
    ensures |r| == ChunkSize
  {
    content + seq(ChunkSize - |content|, _ => 0)
  }

  function Block(padded: seq<Octet>, i: nat): (r: seq<Octet>)
    requires |padded| == ChunkSize && i < LeafCount
    ensures |r| == PairSize
  {
    padded[i * PairSize..(i + 1) * PairSize]
  }

  /** Leaves that hold any of the first `length` bytes. */
  function BlockCount(length: nat): nat {
    (length + PairSize - 1) / PairSize
  }

  function Leaves(keccak: Keccak, padded: seq<Octet>): (r: seq<Hash>)
    requires |padded| == ChunkSize
    ensures |r| == LeafCount
  {
    seq<Hash>(LeafCount, i requires 0 <= i < LeafCount => keccak(Block(padded, i)))
  }

  function Pair(left: Hash, right: Hash): (r: seq<Octet>)
    ensures |r| == PairSize
  {
    var l: seq<Octet>, r: seq<Octet> := left, right;
    l + r
  }

  function Parents(keccak: Keccak, nodes: seq<Hash>): (r: seq<Hash>)
    ensures |r| == |nodes| / 2
  {
    seq<Hash>(|nodes| / 2, i requires 0 <= i < |nodes| / 2 => keccak(Pair(nodes[2 * i], nodes[2 * i + 1])))
  }

  function Width(level: nat): nat
    requires level < LevelCount
  {
    [64, 32, 16, 8, 4, 2, 1][level]
  }

  function Level(keccak: Keccak, content: seq<Octet>, level: nat): (r: seq<Hash>)
    requires |content| <= ChunkSize && level < LevelCount
    ensures |r| == Width(level)
  {
    if level == 0 then Leaves(keccak, Padded(content)) else Parents(keccak, Level(keccak, content, level - 1))
  }

  /** The root of the full, zero-padded tree. */
  function FullRoot(keccak: Keccak, content: seq<Octet>): Hash
    requires |content| <= ChunkSize
  {
    Level(keccak, content, LevelCount - 1)[0]
  }

  // ----- The same tree from the top

  /** The root over 2^height leaves: the hash of the roots of the two halves, the first
      half first. */
  function RootOf(keccak: Keccak, nodes: seq<Hash>, height: nat): Hash
    requires |nodes| == TwoToThe(height)
    decreases height
  {
    if height == 0 then nodes[0]
    else
      var half := TwoToThe(height - 1);
      var left: seq<Octet>, right: seq<Octet> :=
        RootOf(keccak, nodes[..half], height - 1), RootOf(keccak, nodes[half..], height - 1);
      keccak(left + right)
  }

  function Raised(keccak: Keccak, nodes: seq<Hash>, levels: nat): seq<Hash> {
    if levels == 0 then nodes else Parents(keccak, Raised(keccak, nodes, levels - 1))
  }

  lemma {:induction false} ParentsAppend(keccak: Keccak, a: seq<Hash>, b: seq<Hash>)
    requires |a| % 2 == 0
    ensures Parents(keccak, a + b) == Parents(keccak, a) + Parents(keccak, b)
  {
    hide Pair;
  }

  lemma {:induction false} RaisedSize(keccak: Keccak, a: seq<Hash>, height: nat, levels: nat)
    requires levels <= height && |a| == TwoToThe(height)
    ensures |Raised(keccak, a, levels)| == TwoToThe(height - levels)
  {
    hide Parents;
    if levels > 0 {
      RaisedSize(keccak, a, height, levels - 1);
    }
  }

  lemma {:induction false} RaisedAppend(keccak: Keccak, a: seq<Hash>, b: seq<Hash>, height: nat, levels: nat)
    requires levels <= height && |a| == |b| == TwoToThe(height)
    ensures Raised(keccak, a + b, levels) == Raised(keccak, a, levels) + Raised(keccak, b, levels)
  {
    hide Parents;
    if levels > 0 {
      RaisedAppend(keccak, a, b, height, levels - 1);
      RaisedSize(keccak, a, height, levels - 1);
      ParentsAppend(keccak, Raised(keccak, a, levels - 1), Raised(keccak, b, levels - 1));
    }
  }

  lemma {:induction false} RaisedIsRoot(keccak: Keccak, nodes: seq<Hash>, height: nat)
    requires |nodes| == TwoToThe(height)
    ensures Raised(keccak, nodes, height) == [RootOf(keccak, nodes, height)]
    decreases height
  {
    hide Parents;
    if height == 0 {
      assert nodes == [nodes[0]];
    } else {
      var half := TwoToThe(height - 1);
      var a, b := nodes[..half], nodes[half..];
      assert nodes == a + b;
      RaisedAppend(keccak, a, b, height - 1, height - 1);
      RaisedIsRoot(keccak, a, height - 1);
      RaisedIsRoot(keccak, b, height - 1);
      ParentsOfTwo(keccak, RootOf(keccak, a, height - 1), RootOf(keccak, b, height - 1));
    }
  }

  lemma {:induction false} ParentsOfTwo(keccak: Keccak, a: Hash, b: Hash)
    ensures var left: seq<Octet>, right: seq<Octet> := a, b;
            Parents(keccak, [a] + [b]) == [keccak(left + right)]
  {}

  lemma {:induction false} LevelIsRaised(keccak: Keccak, content: seq<Octet>, level: nat)
    requires |content| <= ChunkSize && level < LevelCount
    ensures Level(keccak, content, level) == Raised(keccak, Leaves(keccak, Padded(content)), level)
  {
    hide Leaves, Padded, Parents, Width;
    if level > 0 {
      LevelIsRaised(keccak, content, level - 1);
    }
  }

  /** The full tree's root, built level by level, is the root by halves over the hashes
      of the content's blocks of 64 bytes. */
  lemma {:induction false} FullRootByHalves(keccak: Keccak, content: seq<Octet>, leaves: seq<Hash>)
    requires |content| <= ChunkSize && |leaves| == 64
    requires forall i :: 0 <= i < 64 ==> leaves[i] == keccak(Padded(content)[64 * i..64 * i + 64])
    ensures TwoToThe(6) == 64
    ensures FullRoot(keccak, content) == RootOf(keccak, leaves, 6)
  {
    hide RootOf, Raised, Level, Padded;
    assert TwoToThe(6) == 64;
    assert leaves == Leaves(keccak, Padded(content)) by {
      forall i | 0 <= i < 64 ensures leaves[i] == Leaves(keccak, Padded(content))[i] {
        assert Block(Padded(content), i) == Padded(content)[64 * i..64 * i + 64];
      }
    }
    LevelIsRaised(keccak, content, 6);
    RaisedIsRoot(keccak, leaves, 6);
  }

  /** The node above an all-zero subtree. */
  function ZeroNode(keccak: Keccak, level: nat): Hash {
    if level == 0 then keccak(seq(PairSize, _ => 0))
    else keccak(Pair(ZeroNode(keccak, level - 1), ZeroNode(keccak, level - 1)))
  }

  predicate AllZero(content: seq<Octet>, from: nat) {
    forall i :: from <= i < |content| ==> content[i] == 0
  }

  /** All nodes of a level from a position on are zero nodes. */
  ghost predicate ZeroFrom(keccak: Keccak, content: seq<Octet>, level: nat, from: nat)
    requires |content| <= ChunkSize && level < LevelCount
  {
    forall j :: from <= j < Width(level) ==> Level(keccak, content, level)[j] == ZeroNode(keccak, level)
  }

  /** Nodes wholly beyond the content are zero nodes, at every level. */
  lemma {:induction false} BeyondIsZero(keccak: Keccak, content: seq<Octet>, level: nat, occupied: nat)
    requires |content| <= ChunkSize && level < LevelCount
    requires level == 0 ==> AllZero(content, occupied * PairSize)
    requires level > 0 ==> ZeroFrom(keccak, content, level - 1, 2 * occupied)
    ensures ZeroFrom(keccak, content, level, occupied)
  {
    if level == 0 {
      forall j | occupied <= j < Width(level)
        ensures Level(keccak, content, level)[j] == ZeroNode(keccak, level)
      {
        assert Block(Padded(content), j) == seq(PairSize, _ => 0);
      }
    }
  }

  /** Trailing zeros do not change the root. */
  lemma {:induction false} TrailingZerosIgnored(keccak: Keccak, content: seq<Octet>, zeros: nat)
    requires |content| + zeros <= ChunkSize
    ensures FullRoot(keccak, content + seq(zeros, _ => 0)) == FullRoot(keccak, content)
  {
    assert Padded(content + seq(zeros, _ => 0)) == Padded(content);
    SamePadding(keccak, content, content + seq(zeros, _ => 0), LevelCount - 1);
  }

  lemma {:induction false} SamePadding(keccak: Keccak, a: seq<Octet>, b: seq<Octet>, level: nat)
    requires |a| <= ChunkSize && |b| <= ChunkSize && Padded(a) == Padded(b) && level < LevelCount
    ensures Level(keccak, a, level) == Level(keccak, b, level)
    decreases level
  {
    hide Padded, Leaves, Parents, Width;
    if level > 0 {
      SamePadding(keccak, a, b, level - 1);
    }
  }

  // ----- The computations of the source

  method ZeroNodes(keccak: Keccak) returns (nodes: array<Hash>)
    ensures fresh(nodes) && nodes.Length == LevelCount
    ensures forall l :: 0 <= l < LevelCount ==> nodes[l] == ZeroNode(keccak, l)
  {
    nodes := new Hash[LevelCount];
    nodes[0] := keccak(seq(PairSize, _ => 0));
    for level := 1 to LevelCount
      invariant forall l :: 0 <= l < level ==> nodes[l] == ZeroNode(keccak, l)
    {
      nodes[level] := keccak(Pair(nodes[level - 1], nodes[level - 1]));
    }
  }

  /** The length without trailing zeros. */
  method EffectiveLength(content: seq<Octet>) returns (length: nat)
    ensures length <= |content| && AllZero(content, length)
    ensures length > 0 ==> content[length - 1] != 0
  {
    length := |content|;
    while length > 0 && content[length - 1] == 0
      invariant length <= |content| && AllZero(content, length)
    {
      length := length - 1;
    }
  }

  method HashBlocks(keccak: Keccak, content: seq<Octet>, effective: nat, nodes: array<Hash>)
    requires |content| <= ChunkSize && effective <= |content| && AllZero(content, effective)
    requires nodes.Length == LeafCount
    modifies nodes
    ensures forall j :: 0 <= j < BlockCount(effective) ==> nodes[j] == Leaves(keccak, Padded(content))[j]
  {
    var fullBlocks := effective / PairSize;
    for i := 0 to fullBlocks
      invariant forall j :: 0 <= j < i ==> nodes[j] == keccak(Block(Padded(content), j))
    {
      assert content[i * PairSize..(i + 1) * PairSize] == Block(Padded(content), i);
      nodes[i] := keccak(content[i * PairSize..(i + 1) * PairSize]);
    }
    if effective % PairSize != 0 {
      var start := fullBlocks * PairSize;
      var block := content[start..effective] + seq(PairSize - (effective - start), _ => 0);
      assert block == Block(Padded(content), fullBlocks);
      nodes[fullBlocks] := keccak(block);
    }
  }

  /** One level, in place: each parent overwrites a slot no later child needs. */
  method HashLevel(keccak: Keccak, nodes: array<Hash>, ghost below: seq<Hash>, occupied: nat)
    requires nodes.Length == LeafCount && 2 * occupied <= |below| <= LeafCount
    requires forall j :: 0 <= j < 2 * occupied ==> nodes[j] == below[j]
    modifies nodes
    ensures forall j :: 0 <= j < occupied ==> nodes[j] == Parents(keccak, below)[j]
  {
    for index := 0 to occupied
      invariant forall j :: 0 <= j < index ==> nodes[j] == Parents(keccak, below)[j]
      invariant forall j :: 2 * index <= j < 2 * occupied ==> nodes[j] == below[j]
    {
      nodes[index] := keccak(Pair(nodes[2 * index], nodes[2 * index + 1]));
    }
  }

  /** The sparse computation: only occupied nodes are hashed, one zero node pads
      an odd level. It is the root of the full tree. */
  method BmtRoot(keccak: Keccak, content: seq<Octet>) returns (root: Option<Hash>)
    ensures root == if |content| > ChunkSize then None else Some(FullRoot(keccak, content))
  {
    hide Leaves, Parents, Padded, ZeroNode;
    if |content| > ChunkSize {
      return None;
    }
    var zeros := ZeroNodes(keccak);
    var effective := EffectiveLength(content);
    if effective == 0 {
      AllZeroRoot(keccak, content, LevelCount - 1);
      return Some(zeros[LevelCount - 1]);
    }
    var nodes := new Hash[LeafCount];
    HashBlocks(keccak, content, effective, nodes);
    var occupied := BlockCount(effective);
    BeyondIsZero(keccak, content, 0, occupied);
    for level := 0 to LevelCount - 1
      invariant 0 < occupied <= Width(level)
      invariant forall j :: 0 <= j < occupied ==> nodes[j] == Level(keccak, content, level)[j]
      invariant ZeroFrom(keccak, content, level, occupied)
      invariant forall l :: 0 <= l < LevelCount ==> zeros[l] == ZeroNode(keccak, l)
    {
      if occupied % 2 != 0 {
        nodes[occupied] := zeros[level];
      }
      occupied := (occupied + 1) / 2;
      HashLevel(keccak, nodes, Level(keccak, content, level), occupied);
      BeyondIsZero(keccak, content, level + 1, occupied);
    }
    root := Some(nodes[0]);
  }

  lemma {:induction false} AllZeroRoot(keccak: Keccak, content: seq<Octet>, level: nat)
    requires |content| <= ChunkSize && AllZero(content, 0) && level < LevelCount
    ensures ZeroFrom(keccak, content, level, 0)
    decreases level
  {
    if level > 0 {
      AllZeroRoot(keccak, content, level - 1);
    }
    BeyondIsZero(keccak, content, level, 0);
  }

  /** The chunk address: the hash of the span and the root of the full tree. */
  method ContentAddress(keccak: Keccak, chunk: seq<Octet>) returns (address: Option<Hash>)
    ensures address == if SpanSize <= |chunk| <= SpanSize + ChunkSize
                       then Some(keccak(chunk[..SpanSize] + FullRoot(keccak, chunk[SpanSize..])))
                       else None
  {
    if !(SpanSize <= |chunk| <= SpanSize + ChunkSize) {
      return None;
    }
    var root := BmtRoot(keccak, chunk[SpanSize..]);
    address := Some(keccak(chunk[..SpanSize] + root.value));
  }
}
