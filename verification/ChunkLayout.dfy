/** How an intermediate chunk lays out its children: redundancy tables, child
    capacity, and the packing of references. */
module ChunkLayout {
  import opened Options

  const EncryptedReferenceSize := 64

  datatype RedundancyLevel = NoRedundancy | Medium | Strong | Insane | Paranoid

  /** Rows in descending order of the least shard count they apply to. */
  datatype Table = End | Row(threshold: nat, parities: nat, rest: Table)

  const MediumPlain: Table :=
    Row(95, 9, Row(69, 8, Row(47, 7, Row(29, 6, Row(15, 5, Row(6, 4, Row(2, 3, Row(1, 2, End))))))))

  const MediumEncrypted: Table :=
    Row(47, 9, Row(34, 8, Row(23, 7, Row(14, 6, Row(7, 5, Row(3, 4, Row(1, 3, End)))))))

  const StrongPlain: Table :=
    Row(105, 21, Row(96, 20, Row(87, 19, Row(78, 18, Row(70, 17, Row(62, 16, Row(54, 15, Row(47, 14,
    Row(40, 13, Row(33, 12, Row(27, 11, Row(21, 10, Row(16, 9, Row(11, 8, Row(7, 7, Row(4, 6, Row(2, 5,
    Row(1, 4, End))))))))))))))))))

  const StrongEncrypted: Table :=
    Row(52, 21, Row(48, 20, Row(43, 19, Row(39, 18, Row(35, 17, Row(31, 16, Row(27, 15, Row(23, 14, Row(20, 13,
    Row(16, 12, Row(13, 11, Row(10, 10, Row(8, 9, Row(5, 8, Row(3, 7, Row(2, 6, Row(1, 5, End)))))))))))))))))

  const InsanePlain: Table :=
    Row(93, 31, Row(88, 30, Row(83, 29, Row(78, 28, Row(74, 27, Row(69, 26, Row(64, 25, Row(60, 24, Row(55, 23,
    Row(51, 22, Row(46, 21, Row(42, 20, Row(38, 19, Row(34, 18, Row(30, 17, Row(27, 16, Row(23, 15, Row(20, 14,
    Row(17, 13, Row(14, 12, Row(11, 11, Row(9, 10, Row(6, 9, Row(4, 8, Row(3, 7, Row(2, 6, Row(1, 5, End)))))))))))))))))))))))))))

  const InsaneEncrypted: Table :=
    Row(46, 31, Row(44, 30, Row(41, 29, Row(39, 28, Row(37, 27, Row(34, 26, Row(32, 25, Row(30, 24, Row(27, 23,
    Row(25, 22, Row(23, 21, Row(21, 20, Row(19, 19, Row(17, 18, Row(15, 17, Row(13, 16, Row(11, 15, Row(10, 14,
    Row(8, 13, Row(7, 12, Row(5, 11, Row(4, 10, Row(3, 9, Row(2, 8, Row(1, 6, End)))))))))))))))))))))))))

  const ParanoidPlain: Table :=
    Row(37, 89, Row(36, 87, Row(35, 86, Row(34, 84, Row(33, 83, Row(32, 81, Row(31, 80, Row(30, 78, Row(29, 76,
    Row(28, 75, Row(27, 73, Row(26, 71, Row(25, 70, Row(24, 68, Row(23, 66, Row(22, 65, Row(21, 63, Row(20, 61,
    Row(19, 59, Row(18, 58, Row(17, 56, Row(16, 54, Row(15, 52, Row(14, 50, Row(13, 48, Row(12, 47, Row(11, 45,
    Row(10, 43, Row(9, 40, Row(8, 38, Row(7, 36, Row(6, 34, Row(5, 31, Row(4, 29, Row(3, 26, Row(2, 23,
    Row(1, 19, End)))))))))))))))))))))))))))))))))))))

  const ParanoidEncrypted: Table :=
    Row(18, 87, Row(17, 84, Row(16, 81, Row(15, 78, Row(14, 75, Row(13, 71, Row(12, 68, Row(11, 65, Row(10, 61,
    Row(9, 58, Row(8, 54, Row(7, 50, Row(6, 47, Row(5, 43, Row(4, 38, Row(3, 34, Row(2, 29, Row(1, 23, End))))))))))))))))))

  function ErasureTable(level: RedundancyLevel, encrypted: bool): Table {
    match level
    case NoRedundancy => End
    case Medium => if encrypted then MediumEncrypted else MediumPlain
    case Strong => if encrypted then StrongEncrypted else StrongPlain
    case Insane => if encrypted then InsaneEncrypted else InsanePlain
    case Paranoid => if encrypted then ParanoidEncrypted else ParanoidPlain
  }

  /** The first row that applies. */
  function Lookup(table: Table, shards: nat): nat {
    match table
    case End => 0
    case Row(threshold, parities, rest) => if shards >= threshold then parities else Lookup(rest, shards)
  }

  function Parities(level: RedundancyLevel, shards: nat, encrypted: bool): nat {
    if level == NoRedundancy || shards == 0 then 0 else Lookup(ErasureTable(level, encrypted), shards)
  }

  function MaxShards(level: RedundancyLevel, encrypted: bool): (r: nat)
  {
    var reserved := Parities(level, if encrypted then 64 else 128, encrypted);
    if reserved > 128 then 0 else if encrypted then (128 - reserved) / 2 else 128 - reserved
  }

  /** The rows descend, and every row leaves room for its parities beside `upper` or
      fewer data references, each `weight` slots of 32 bytes wide. */
  predicate Fits(table: Table, upper: int, weight: nat) {
    match table
    case End => upper <= 0
    case Row(threshold, parities, rest) =>
      threshold <= upper && weight * upper + parities <= 128 && Fits(rest, threshold - 1, weight)
  }

  lemma {:induction false} FitsLookup(table: Table, upper: int, weight: nat, shards: nat)
    requires Fits(table, upper, weight) && 1 <= shards <= upper
    ensures weight * shards + Lookup(table, shards) <= 128
  {
    var Row(threshold, parities, rest) := table;
    if shards >= threshold {
      assert weight * shards <= weight * upper;
    } else {
      FitsLookup(rest, threshold - 1, weight, shards);
    }
  }

  ghost predicate HasRow(table: Table, threshold: nat, parities: nat) {
    table.Row? && ((table.threshold == threshold && table.parities == parities) || HasRow(table.rest, threshold, parities))
  }

  lemma {:induction false} RowsBelow(table: Table, upper: int, weight: nat, threshold: nat, parities: nat)
    requires Fits(table, upper, weight) && HasRow(table, threshold, parities)
    ensures threshold <= upper
  {
    if table.threshold != threshold || table.parities != parities {
      RowsBelow(table.rest, table.threshold - 1, weight, threshold, parities);
    }
  }

  /** The row found is the one of the greatest threshold within the shard count. */
  lemma {:induction false} LookupRow(table: Table, upper: int, weight: nat, shards: nat) returns (threshold: nat)
    requires Fits(table, upper, weight) && 1 <= shards && 1 <= upper
    ensures HasRow(table, threshold, Lookup(table, shards)) && threshold <= shards
    ensures forall other: nat, parities: nat :: HasRow(table, other, parities) && other <= shards ==> other <= threshold
  {
    if shards >= table.threshold {
      threshold := table.threshold;
      forall other: nat, parities: nat | HasRow(table, other, parities) ensures other <= threshold {
        if other != threshold || parities != table.parities {
          RowsBelow(table.rest, threshold - 1, weight, other, parities);
        }
      }
    } else {
      threshold := LookupRow(table.rest, table.threshold - 1, weight, shards);
    }
  }

  /** The number of parities is the one of the last step of the level's table. */
  lemma {:induction false} ParitiesOfRow(level: RedundancyLevel, shards: nat, encrypted: bool) returns (threshold: nat)
    requires level != NoRedundancy && shards >= 1
    ensures HasRow(ErasureTable(level, encrypted), threshold, Parities(level, shards, encrypted)) && threshold <= shards
    ensures forall other: nat, parities: nat ::
              HasRow(ErasureTable(level, encrypted), other, parities) && other <= shards ==> other <= threshold
  {
    hide Lookup, Fits, ErasureTable, HasRow;
    Branching(level, encrypted);
    threshold := LookupRow(ErasureTable(level, encrypted), MaxShards(level, encrypted), if encrypted then 2 else 1, shards);
  }

  /** The branching factors the tables induce, and that they fit a chunk. */
  lemma {:induction false} Branching(level: RedundancyLevel, encrypted: bool)
    ensures MaxShards(level, encrypted) ==
            match level
            case NoRedundancy => if encrypted then 64 else 128
            case Medium => if encrypted then 59 else 119
            case Strong => if encrypted then 53 else 107
            case Insane => if encrypted then 48 else 97
            case Paranoid => if encrypted then 20 else 39
    ensures level != NoRedundancy ==>
              Fits(ErasureTable(level, encrypted), MaxShards(level, encrypted), if encrypted then 2 else 1)
  {
    match level
    case NoRedundancy =>
    case Medium => MediumFits();
    case Strong => StrongFits();
    case Insane => InsaneFits();
    case Paranoid => ParanoidFits();
  }

  lemma {:induction false} AtLeastTwo(level: RedundancyLevel, encrypted: bool)
    ensures MaxShards(level, encrypted) >= 2
  {
    Branching(level, encrypted);
  }

  lemma {:induction false} MediumFits()
    ensures Fits(MediumPlain, 119, 1)
    ensures Fits(MediumEncrypted, 59, 2)
  {
  }

  lemma {:induction false} StrongFits()
    ensures Fits(StrongPlain, 107, 1)
    ensures Fits(StrongEncrypted, 53, 2)
  {
    var plain6 := StrongPlain.rest.rest.rest.rest.rest.rest;
    var plain12 := plain6.rest.rest.rest.rest.rest.rest;
    assert Fits(plain12, 20, 1);
    assert Fits(plain6, 61, 1);
    var encrypted6 := StrongEncrypted.rest.rest.rest.rest.rest.rest;
    var encrypted12 := encrypted6.rest.rest.rest.rest.rest.rest;
    assert Fits(encrypted12, 9, 2);
    assert Fits(encrypted6, 30, 2);
  }

  lemma {:induction false} InsaneFits()
    ensures Fits(InsanePlain, 97, 1)
    ensures Fits(InsaneEncrypted, 48, 2)
  {
    var plain6 := InsanePlain.rest.rest.rest.rest.rest.rest;
    var plain12 := plain6.rest.rest.rest.rest.rest.rest;
    var plain18 := plain12.rest.rest.rest.rest.rest.rest;
    var plain24 := plain18.rest.rest.rest.rest.rest.rest;
    assert Fits(plain24, 3, 1);
    assert Fits(plain18, 19, 1);
    assert Fits(plain12, 41, 1);
    assert Fits(plain6, 68, 1);
    var encrypted6 := InsaneEncrypted.rest.rest.rest.rest.rest.rest;
    var encrypted12 := encrypted6.rest.rest.rest.rest.rest.rest;
    var encrypted18 := encrypted12.rest.rest.rest.rest.rest.rest;
    var encrypted24 := encrypted18.rest.rest.rest.rest.rest.rest;
    assert Fits(encrypted24, 1, 2);
    assert Fits(encrypted18, 9, 2);
    assert Fits(encrypted12, 20, 2);
    assert Fits(encrypted6, 33, 2);
  }

  lemma {:induction false} ParanoidFits()
    ensures Fits(ParanoidPlain, 39, 1)
    ensures Fits(ParanoidEncrypted, 20, 2)
  {
    var plain6 := ParanoidPlain.rest.rest.rest.rest.rest.rest;
    var plain12 := plain6.rest.rest.rest.rest.rest.rest;
    var plain18 := plain12.rest.rest.rest.rest.rest.rest;
    var plain24 := plain18.rest.rest.rest.rest.rest.rest;
    var plain30 := plain24.rest.rest.rest.rest.rest.rest;
    var plain36 := plain30.rest.rest.rest.rest.rest.rest;
    assert Fits(plain36, 1, 1);
    assert Fits(plain30, 7, 1);
    assert Fits(plain24, 13, 1);
    assert Fits(plain18, 19, 1);
    assert Fits(plain12, 25, 1);
    assert Fits(plain6, 31, 1);
    var encrypted6 := ParanoidEncrypted.rest.rest.rest.rest.rest.rest;
    var encrypted12 := encrypted6.rest.rest.rest.rest.rest.rest;
    assert Fits(encrypted12, 6, 2);
    assert Fits(encrypted6, 12, 2);
  }

  /** The references of a full or partial parent never outgrow one chunk. */
  lemma {:induction false} ReferencesFit(level: RedundancyLevel, encrypted: bool, shards: nat)
    requires 1 <= shards <= MaxShards(level, encrypted)
    ensures shards * ReferenceSize(encrypted) + Parities(level, shards, encrypted) * HashSize <= ChunkSize
  {
    hide Lookup, Fits, ErasureTable;
    Branching(level, encrypted);
    if level != NoRedundancy {
      FitsLookup(ErasureTable(level, encrypted), MaxShards(level, encrypted), if encrypted then 2 else 1, shards);
    }
  }

  function ReferenceSize(encrypted: bool): nat {
    if encrypted then EncryptedReferenceSize else HashSize
  }

  // ----- Child capacity

  datatype Layout = Layout(dataShards: nat, parityShards: nat, childCapacity: nat)

  function Capacity(branching: nat, height: nat): nat {
    if height == 0 then ChunkSize else Capacity(branching, height - 1) * branching
  }

  /** The largest capacity below the span, found by growing from `capacity`; none
      when the next one would not fit in 64 bits. */
  function ChildCapacity(span: nat, branching: nat, capacity: nat): (r: Option<nat>)
    requires branching >= 2 && 0 < capacity < span
    ensures r.Some? ==> capacity <= r.value < span <= r.value * branching <= MaxWord
    decreases span - capacity
  {
    if capacity * branching > MaxWord then None
    else if capacity * branching >= span then Some(capacity)
    else ChildCapacity(span, branching, capacity * branching)
  }

  function LayoutOf(span: nat, level: RedundancyLevel, encrypted: bool): Option<Layout> {
    var branching := MaxShards(level, encrypted);
    if span <= ChunkSize || branching < 2 then None
    else match ChildCapacity(span, branching, ChunkSize)
      case None => None
      case Some(capacity) =>
        if span + capacity - 1 > MaxWord then None
        else
          var shards := (span + capacity - 1) / capacity;
          Some(Layout(shards, Parities(level, shards, encrypted), capacity))
  }

  /** The children tile the span: at least two, at most the branching factor, all
      but the last full. A child's capacity is that of a full tree of some height, the
      greatest below the span; the references fit in one chunk. */
  lemma {:induction false} LayoutTiles(span: nat, level: RedundancyLevel, encrypted: bool)
    requires LayoutOf(span, level, encrypted).Some?
    ensures var layout := LayoutOf(span, level, encrypted).value;
            && ChunkSize <= layout.childCapacity < span <= layout.childCapacity * MaxShards(level, encrypted)
            && (exists height :: layout.childCapacity == Capacity(MaxShards(level, encrypted), height))
            && layout.parityShards == Parities(level, layout.dataShards, encrypted)
            && 2 <= layout.dataShards <= MaxShards(level, encrypted)
            && (layout.dataShards - 1) * layout.childCapacity < span <= layout.dataShards * layout.childCapacity
            && layout.dataShards * ReferenceSize(encrypted) + layout.parityShards * HashSize <= ChunkSize
  {
    hide Lookup, Fits, ErasureTable, Parities, MaxShards;
    var layout := LayoutOf(span, level, encrypted).value;
    var c, n := layout.childCapacity, layout.dataShards;
    var height := LayoutHeight(span, level, encrypted);
    CeilingDivision(span, c);
    Product(MaxShards(level, encrypted), n - 1, c);
    Product(n, 1, c);
    ReferencesFit(level, encrypted, n);
  }

  lemma {:induction false} Product(a: int, b: int, c: nat)
    ensures a <= b ==> a * c <= b * c
  {}

  lemma {:induction false} CeilingDivision(span: nat, c: nat)
    requires 0 < c && 0 < span
    ensures var n := (span + c - 1) / c; 1 <= n && (n - 1) * c < span <= n * c
  {
    var n := (span + c - 1) / c;
    assert span + c - 1 == n * c + (span + c - 1) % c;
    assert (n - 1) * c == n * c - c;
  }

  /** A span beyond one chunk lies between the capacities of two neighbouring heights,
      of which the lower is the children's; there is no layout exactly when the upper
      one, or the rounding of the division, leaves 64 bits. */
  lemma {:induction false} LayoutHeight(span: nat, level: RedundancyLevel, encrypted: bool) returns (height: nat)
    requires span > ChunkSize
    ensures var branching := MaxShards(level, encrypted);
            var layout := LayoutOf(span, level, encrypted);
            && Capacity(branching, height) < span <= Capacity(branching, height + 1)
            && (layout.Some? <==> Capacity(branching, height + 1) <= MaxWord && span + Capacity(branching, height) - 1 <= MaxWord)
            && (layout.Some? ==> layout.value.childCapacity == Capacity(branching, height))
  {
    hide Parities, MaxShards, ChildCapacity, Capacity;
    AtLeastTwo(level, encrypted);
    CapacityBase(MaxShards(level, encrypted));
    height := CapacityHeight(span, MaxShards(level, encrypted), 0);
  }

  lemma {:induction false} CapacityBase(branching: nat)
    ensures Capacity(branching, 0) == ChunkSize
  {}

  lemma {:induction false} CapacityHeight(span: nat, branching: nat, low: nat) returns (height: nat)
    requires branching >= 2 && Capacity(branching, low) < span
    ensures Capacity(branching, height) < span <= Capacity(branching, height + 1)
    ensures 0 < Capacity(branching, low)
    ensures ChildCapacity(span, branching, Capacity(branching, low)) ==
            if Capacity(branching, height + 1) <= MaxWord then Some(Capacity(branching, height)) else None
    decreases span - Capacity(branching, low)
  {
    height := low;
    CapacityGrows(branching, 0, low);
    Product(2, branching, Capacity(branching, low));
    if Capacity(branching, low + 1) < span {
      height := CapacityHeight(span, branching, low + 1);
    }
  }

  /** Only one height fits a span. */
  lemma {:induction false} HeightUnique(span: nat, branching: nat, a: nat, b: nat)
    requires branching >= 2
    requires Capacity(branching, a) < span <= Capacity(branching, a + 1)
    requires Capacity(branching, b) < span <= Capacity(branching, b + 1)
    ensures a == b
  {
    if a < b {
      CapacityGrows(branching, a + 1, b);
    } else if b < a {
      CapacityGrows(branching, b + 1, a);
    }
  }

  /** Grows a subtree capacity until it covers the span; `levels` counts the
      chunk levels of that subtree. */
  method BranchLevels(span: nat, branching: nat) returns (levels: Option<nat>)
    requires ChunkSize < span <= MaxWord && branching >= 2
    ensures levels.None? <==> ChildCapacity(span, branching, ChunkSize).None?
    ensures levels.Some? ==> levels.value >= 2
    ensures levels.Some? ==> ChildCapacity(span, branching, ChunkSize) == Some(Capacity(branching, levels.value - 2))
  {
    var branchSize, branchLevel := ChunkSize, 1;
    ghost var previous := 0;
    while branchSize < span
      invariant branchLevel >= 1 && branchSize == Capacity(branching, branchLevel - 1) >= ChunkSize
      invariant branchSize < span ==> ChildCapacity(span, branching, ChunkSize) == ChildCapacity(span, branching, branchSize)
      invariant branchSize >= span ==> branchLevel >= 2 && previous == Capacity(branching, branchLevel - 2)
      invariant branchSize >= span ==> ChildCapacity(span, branching, ChunkSize) == Some(previous)
      decreases span - branchSize
    {
      Product(2, branching, branchSize);
      if branchSize * branching > MaxWord {
        return None;
      }
      previous := branchSize;
      branchSize := branchSize * branching;
      branchLevel := branchLevel + 1;
    }
    levels := Some(branchLevel);
  }

  method CheckedCapacity(branching: nat, height: nat) returns (size: Option<nat>)
    requires branching >= 1
    ensures size == if Capacity(branching, height) <= MaxWord then Some(Capacity(branching, height)) else None
  {
    var referenceSize := ChunkSize;
    for i := 0 to height
      invariant referenceSize == Capacity(branching, i) <= MaxWord
    {
      CapacityGrows(branching, i + 1, height);
      if referenceSize * branching > MaxWord {
        return None;
      }
      referenceSize := referenceSize * branching;
    }
    size := Some(referenceSize);
  }

  /** The loops of the source compute that layout. */
  method ReferenceLayout(span: nat, level: RedundancyLevel, encrypted: bool) returns (layout: Option<Layout>)
    requires span <= MaxWord
    ensures layout == LayoutOf(span, level, encrypted)
  {
    hide Lookup, Fits, ErasureTable, Parities, MaxShards, ChildCapacity;
    if span <= ChunkSize {
      return None;
    }
    var branching := MaxShards(level, encrypted);
    AtLeastTwo(level, encrypted);
    var levels := BranchLevels(span, branching);
    if levels.None? {
      return None;
    }
    var reference := CheckedCapacity(branching, levels.value - 2);
    if reference.None? {
      return None;
    }
    var referenceSize := reference.value;
    if span + (referenceSize - 1) > MaxWord {
      return None;
    }
    var dataShards := (span + (referenceSize - 1)) / referenceSize;
    layout := Some(Layout(dataShards, Parities(level, dataShards, encrypted), referenceSize));
  }

  lemma {:induction false} CapacityGrows(branching: nat, a: nat, b: nat)
    requires branching >= 1 && a <= b
    ensures Capacity(branching, a) <= Capacity(branching, b)
    decreases b
  {
    if a < b {
      CapacityGrows(branching, a, b - 1);
      Product(1, branching, Capacity(branching, b - 1));
    }
  }

  // ----- Packed references

  /** The first `count` pieces of a byte string, `width` bytes each. */
  function Pieces(bytes: seq<Octet>, width: nat, count: nat): (r: seq<seq<Octet>>)
    requires |bytes| == count * width
    ensures |r| == count
    ensures forall i :: 0 <= i < |r| ==> |r[i]| == width
    decreases count
  {
    if count == 0 then []
    else
      Shorter(count, width);
      [bytes[..width]] + Pieces(bytes[width..], width, count - 1)
  }

  lemma {:induction false} Shorter(count: nat, width: nat)
    requires count > 0
    ensures count * width - width == (count - 1) * width >= 0
  {}

  function Joined(pieces: seq<seq<Octet>>): seq<Octet> {
    if pieces == [] then [] else pieces[0] + Joined(pieces[1..])
  }

  lemma {:induction false} PiecesJoin(bytes: seq<Octet>, width: nat, count: nat)
    requires |bytes| == count * width
    ensures Joined(Pieces(bytes, width, count)) == bytes
    decreases count
  {
    if count > 0 {
      Shorter(count, width);
      PiecesJoin(bytes[width..], width, count - 1);
      assert Pieces(bytes, width, count)[1..] == Pieces(bytes[width..], width, count - 1);
    }
  }

  function SplitReferences(payload: seq<Octet>, span: nat, level: RedundancyLevel, encrypted: bool)
    : Option<(seq<seq<Octet>>, seq<seq<Octet>>)>
  {
    match LayoutOf(span, level, encrypted)
    case None => None
    case Some(layout) => SplitAs(payload, layout, ReferenceSize(encrypted))
  }

  function SplitAs(payload: seq<Octet>, layout: Layout, size: nat): Option<(seq<seq<Octet>>, seq<seq<Octet>>)> {
    var dataBytes := layout.dataShards * size;
    if |payload| != dataBytes + layout.parityShards * HashSize then None
    else Some((Pieces(payload[..dataBytes], size, layout.dataShards),
               Pieces(payload[dataBytes..], HashSize, layout.parityShards)))
  }

  /** Data references first, then parity references, and nothing else. */
  lemma {:induction false} SplitReferencesFacts(payload: seq<Octet>, span: nat, level: RedundancyLevel, encrypted: bool)
    requires LayoutOf(span, level, encrypted).Some?
    ensures var layout := LayoutOf(span, level, encrypted).value;
            var split := SplitReferences(payload, span, level, encrypted);
            && (split.Some? <==> |payload| == layout.dataShards * ReferenceSize(encrypted) + layout.parityShards * HashSize)
            && (split.Some? ==>
                  && |split.value.0| == layout.dataShards
                  && |split.value.1| == layout.parityShards
                  && (forall i :: 0 <= i < |split.value.0| ==> |split.value.0[i]| == ReferenceSize(encrypted))
                  && (forall i :: 0 <= i < |split.value.1| ==> |split.value.1[i]| == HashSize)
                  && Joined(split.value.0) + Joined(split.value.1) == payload)
  {
    hide LayoutOf, Joined, Pieces;
    var layout := LayoutOf(span, level, encrypted).value;
    var size := ReferenceSize(encrypted);
    var dataBytes := layout.dataShards * size;
    if |payload| == dataBytes + layout.parityShards * HashSize {
      var data, parity := payload[..dataBytes], payload[dataBytes..];
      PiecesJoin(data, size, layout.dataShards);
      PiecesJoin(parity, HashSize, layout.parityShards);
      assert data + parity == payload;
    }
  }
}
