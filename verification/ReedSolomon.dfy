/** Recovery of missing data shards from any `dataCount` surviving shards. */
module ReedSolomon {
  import opened Options
  import opened GaloisField
  import opened Matrices
  import opened Elimination
  import opened Vandermonde
  import opened CodingMatrix

  type Shard = Row

  // ----- Coding a row of coefficients against shards

  /** Byte by byte, the combination of `inputs` with the given coefficients. */
  ghost function Coded(coefficients: Row, inputs: seq<Shard>, size: nat): (r: Shard)
    requires |coefficients| == |inputs| && Shaped(inputs, |inputs|, size)
    ensures |r| == size
  {
    seq(size, b requires 0 <= b < size => Dot(coefficients, Column(inputs, b), |inputs|))
  }

  /** A shard cut to the size or filled up with zeros. */
  ghost function Fitted(input: Shard, size: nat): (r: Shard)
    ensures |r| == size
    ensures forall b :: 0 <= b < size ==> r[b] == if b < |input| then input[b] else Zero
  {
    seq(size, b requires 0 <= b < size => if b < |input| then input[b] else Zero)
  }

  ghost function FittedAll(inputs: seq<Shard>, n: nat, size: nat): (r: seq<Shard>)
    requires n <= |inputs|
    ensures |r| == n && Shaped(r, n, size)
    ensures forall i :: 0 <= i < n ==> r[i] == Fitted(inputs[i], size)
  {
    seq(n, i requires 0 <= i < n => Fitted(inputs[i], size))
  }

  lemma {:induction false} FittedShaped(inputs: seq<Shard>, size: nat)
    requires Shaped(inputs, |inputs|, size)
    ensures FittedAll(inputs, |inputs|, size) == inputs
  {
    forall i | 0 <= i < |inputs| ensures Fitted(inputs[i], size) == inputs[i] {
    }
  }

  /** Lists of unequal length are used as far as both go, short shards as if they
      ended in zeros. */
  method CodeRowSlices(coefficients: Row, inputs: seq<Shard>, size: nat) returns (output: Shard)
    ensures var n := Min(|coefficients|, |inputs|);
            output == Coded(coefficients[..n], FittedAll(inputs, n, size), size)
    ensures |coefficients| == |inputs| && Shaped(inputs, |inputs|, size) ==> output == Coded(coefficients, inputs, size)
  {
    hide Mul, Add;
    var n := Min(|coefficients|, |inputs|);
    ghost var used, fitted := coefficients[..n], FittedAll(inputs, n, size);
    output := seq(size, _ => Zero);
    for i := 0 to n
      invariant |output| == size
      invariant forall b :: 0 <= b < size ==> output[b] == Dot(used, Column(fitted, b), i)
    {
      output := AddInput(coefficients[i], inputs[i], output, size);
    }
    if |coefficients| == |inputs| && Shaped(inputs, |inputs|, size) {
      FittedShaped(inputs, size);
      assert used == coefficients;
    }
  }

  /** Adds one input times its coefficient, skipping zero and saving the product for one. */
  method AddInput(coefficient: Byte, input: Shard, before: Shard, size: nat) returns (output: Shard)
    requires |before| == size
    ensures |output| == size
    ensures forall b :: 0 <= b < size ==> output[b] == Add(before[b], Mul(coefficient, Fitted(input, size)[b]))
  {
    hide Mul, Add;
    output := before;
    forall b | 0 <= b < size
      ensures coefficient == Zero || b >= |input| ==> before[b] == Add(before[b], Mul(coefficient, Fitted(input, size)[b]))
    {
      MulZero(coefficient);
      MulZero(Fitted(input, size)[b]);
      AddZero(before[b]);
    }
    if coefficient == Zero {
      return;
    }
    for j := 0 to Min(size, |input|)
      invariant |output| == size
      invariant forall b :: 0 <= b < j ==> output[b] == Add(before[b], Mul(coefficient, Fitted(input, size)[b]))
      invariant forall b :: j <= b < size ==> output[b] == before[b]
    {
      if coefficient == One {
        MulOne(input[j]);
        output := output[j := Add(output[j], input[j])];
      } else {
        var product := GfMul(coefficient, input[j]);
        output := output[j := Add(output[j], product)];
      }
    }
  }

  // ----- Single rows of the decoding matrix

  function Transposed(s: Matrix, size: nat): (m: Matrix)
    requires Shaped(s, size, size)
    ensures Shaped(m, size, size)
  {
    seq(size, r requires 0 <= r < size => Column(s, r))
  }

  ghost predicate SelectsSquare(coding: Matrix, selected: seq<nat>, requested: seq<nat>) {
    && |selected| > 0
    && (forall t :: 0 <= t < |requested| ==> requested[t] < |selected|)
    && forall i :: 0 <= i < |selected| ==> selected[i] < |coding| && |coding[selected[i]]| == |selected|
  }

  /** Row `requested[t]` of the inverse of the selected rows: the combination of
      selected rows that yields that unit row. */
  ghost predicate DecodesTo(row: Row, s: Matrix, size: nat, at: nat)
    requires Shaped(s, size, size)
  {
    |row| == size && Combine(row, s, size, size) == UnitRow(size, at)
  }

  method InverseRowsForSelected(coding: Matrix, selected: seq<nat>, requested: seq<nat>)
      returns (result: Result<Matrix>)
    ensures result.Err? ==> result.error == SingularMatrix
    ensures result.Ok? <==>
            (SelectsSquare(coding, selected, requested)
             && (requested == [] || Invertible(Transposed(Select(coding, selected), |selected|), |selected|)))
    ensures result.Ok? ==> |result.value| == |requested|
    ensures result.Ok? ==> forall t :: 0 <= t < |requested| ==>
                                         DecodesTo(result.value[t], Select(coding, selected), |selected|, requested[t])
  {
    hide Dot, Combine, Invertible, Independent, SameKernel;
    var size := |selected|;
    if size == 0 {
      return Err(SingularMatrix);
    }
    for t := 0 to |requested|
      invariant forall i :: 0 <= i < t ==> requested[i] < size
    {
      if requested[t] >= size {
        return Err(SingularMatrix);
      }
    }
    for i := 0 to size
      invariant forall j :: 0 <= j < i ==> selected[j] < |coding| && |coding[selected[j]]| == size
    {
      if selected[i] >= |coding| || |coding[selected[i]]| != size {
        return Err(SingularMatrix);
      }
    }
    if requested == [] {
      return Ok([]);
    }

    var width := size + |requested|;
    var work := new Row[size](_ => []);
    FillWork(work, coding, selected, requested);
    ghost var s := Select(coding, selected);
    ghost var start := work[..];
    LeftBlockInvertible(Transposed(s, size), start, size, width);
    var outcome := GaussJordan(work, size);
    if outcome.Failed? {
      return Err(outcome.error);
    }
    ghost var end := work[..];
    ShapesOfSameKernel(start, end, size, width);
    var rows: Matrix := [];
    for t := 0 to |requested|
      invariant |rows| == t && work[..] == end
      invariant forall i :: 0 <= i < t ==> rows[i] == Column(end, size + i)
    {
      var row: Row := [];
      for i := 0 to size
        invariant |row| == i && work[..] == end
        invariant forall j :: 0 <= j < i ==> row[j] == end[j][size + t]
      {
        row := row + [work[i][size + t]];
      }
      assert row == Column(end, size + t);
      rows := rows + [row];
    }
    forall t | 0 <= t < |requested|
      ensures DecodesTo(rows[t], s, size, requested[t])
    {
      ColumnDecodes(s, start, end, size, width, requested, t);
    }
    result := Ok(rows);
  }

  /** The augmented system: the selected rows as columns, then the requested units. */
  ghost predicate Augmented(work: Matrix, s: Matrix, size: nat, requested: seq<nat>)
    requires Shaped(s, size, size)
  {
    && Shaped(work, size, size + |requested|)
    && (forall r :: 0 <= r < size ==> work[r][..size] == Column(s, r))
    && forall r, t :: 0 <= r < size && 0 <= t < |requested| ==>
                        work[r][size + t] == if requested[t] == r then One else Zero
  }

  method FillWork(work: array<Row>, coding: Matrix, selected: seq<nat>, requested: seq<nat>)
    requires SelectsSquare(coding, selected, requested) && work.Length == |selected|
    modifies work
    ensures Augmented(work[..], Select(coding, selected), |selected|, requested)
  {
    var size := |selected|;
    var width := size + |requested|;
    ghost var s := Select(coding, selected);
    for r := 0 to size
      invariant forall i :: 0 <= i < r ==> work[i] == ZeroRow(width)
    {
      work[r] := seq(width, _ => Zero);
      assert work[r] == ZeroRow(width);
    }
    for c := 0 to size
      invariant forall r :: 0 <= r < size ==> |work[r]| == width
      invariant forall r, i :: 0 <= r < size && 0 <= i < c ==> work[r][i] == s[i][r]
      invariant forall r, i :: 0 <= r < size && c <= i < width ==> work[r][i] == Zero
    {
      assert s[c] == coding[selected[c]];
      WriteColumn(work, c, coding[selected[c]], size, width);
    }
    ghost var filled := work[..];
    for t := 0 to |requested|
      invariant forall r :: 0 <= r < size ==> |work[r]| == width && work[r][..size] == filled[r][..size]
      invariant forall r, i :: 0 <= r < size && 0 <= i < |requested| ==>
                                 work[r][size + i] == if i < t && requested[i] == r then One else Zero
    {
      work[requested[t]] := work[requested[t]][size + t := One];
    }
    forall r | 0 <= r < size
      ensures work[r][..size] == Column(s, r)
    {
      assert work[r][..size] == filled[r][..size];
    }
  }

  method WriteColumn(work: array<Row>, c: nat, coefficients: Row, size: nat, ghost width: nat)
    requires work.Length == size == |coefficients| && c < width
    requires forall r :: 0 <= r < size ==> |work[r]| == width
    modifies work
    ensures forall r :: 0 <= r < size ==> work[r] == old(work[r])[c := coefficients[r]]
  {
    for r := 0 to size
      invariant forall i :: 0 <= i < size ==> work[i] == if i < r then old(work[i])[c := coefficients[i]] else old(work[i])
    {
      work[r] := work[r][c := coefficients[r]];
    }
  }

  lemma {:induction false} ColumnDecodes(s: Matrix, start: Matrix, end: Matrix, size: nat, width: nat, requested: seq<nat>, t: nat)
    requires Shaped(s, size, size) && Augmented(start, s, size, requested) && width == size + |requested|
    requires SameKernel(start, end, size, width) && LeftIdentity(end, size, width)
    requires t < |requested| && requested[t] < size && Shaped(end, size, width)
    ensures DecodesTo(Column(end, size + t), s, size, requested[t])
  {
    hide Dot, Combine, SameKernel, LeftIdentity;
    var row := Column(end, size + t);
    forall r | 0 <= r < size
      ensures Combine(row, s, size, size)[r] == if r == requested[t] then One else Zero
    {
      CombineEntry(row, s, size, size, r);
      DotComm(row, Column(s, r), size);
      RightBlockSolves(start, end, size, width, r, t);
    }
  }

  /** The selected rows of a coding matrix always form an invertible system. */
  lemma {:induction false} SelectionInvertible(c: Matrix, k: nat, n: nat, selected: seq<nat>)
    requires IsCodingMatrix(c, k, n) && |selected| == k && DistinctIndices(selected, n)
    ensures Invertible(Transposed(Select(c, selected), k), k)
  {
    hide Dot, Combine, IsCodingMatrix;
    assert Shaped(c, n, k) by { CodingMatrixShape(c, k, n); }
    var s := Select(c, selected);
    forall v: Row | |v| == k && InKernel(Transposed(s, k), v)
      ensures AllZero(v)
    {
      forall r | 0 <= r < k
        ensures Combine(v, s, k, k)[r] == Zero
      {
        CombineEntry(v, s, k, k, r);
        DotComm(v, Column(s, r), k);
        assert Dot(Transposed(s, k)[r], v, |v|) == Zero;
      }
      AnyRowsIndependent(c, k, n, selected, v);
    }
  }

  lemma {:induction false} CodingMatrixShape(c: Matrix, k: nat, n: nat)
    requires IsCodingMatrix(c, k, n)
    ensures Shaped(c, n, k) && 0 < k <= n <= 256
  {}

  /** Decoding row times coded shards gives back the data shard. */
  lemma {:induction false} DecodeRecovers(s: Matrix, k: nat, data: seq<Shard>, size: nat, coded: seq<Shard>, row: Row, at: nat)
    requires Shaped(s, k, k) && Shaped(data, k, size) && Shaped(coded, k, size) && at < k
    requires forall i :: 0 <= i < k ==> coded[i] == Coded(s[i], data, size)
    requires DecodesTo(row, s, k, at)
    ensures Coded(row, coded, size) == data[at]
  {
    hide Dot, Combine;
    forall b | 0 <= b < size
      ensures Coded(row, coded, size)[b] == data[at][b]
    {
      var d := Column(data, b);
      CombineDot(row, s, d, Column(coded, b), k, k);
      DotUnit(UnitRow(k, at), d, k, at);
    }
  }

  // ----- The matrix cache

  const CacheEntries := 64

  class CodingMatrixCache {
    var entries: seq<((nat, nat), Matrix)>

    /** Every entry holds the coding matrix of its key. */
    ghost predicate Valid()
      reads this
    {
      && |entries| <= CacheEntries
      && forall i :: 0 <= i < |entries| ==>
                       IsCodingMatrix(entries[i].1, entries[i].0.0, entries[i].0.1)
    }

    constructor ()
      ensures Valid() && entries == []
    {
      entries := [];
    }

    /** A hit moves its entry to the back. */
    method Get(key: (nat, nat)) returns (found: Option<Matrix>)
      requires Valid()
      modifies this
      ensures Valid()
      ensures found.None? <==> forall i :: 0 <= i < |old(entries)| ==> old(entries)[i].0 != key
      ensures found.None? ==> entries == old(entries)
      ensures found.Some? ==> IsCodingMatrix(found.value, key.0, key.1)
      ensures found.Some? ==>
                exists i :: 0 <= i < |old(entries)| && old(entries)[i] == (key, found.value) &&
                            entries == old(entries)[..i] + old(entries)[i + 1..] + [(key, found.value)]
    {
      hide IsCodingMatrix;
      var i := 0;
      while i < |entries| && entries[i].0 != key
        invariant 0 <= i <= |entries|
        invariant forall j :: 0 <= j < i ==> entries[j].0 != key
      {
        i := i + 1;
      }
      if i == |entries| {
        return None;
      }
      var entry := entries[i];
      entries := entries[..i] + entries[i + 1..] + [entry];
      assert old(entries)[i] == (key, entry.1);
      found := Some(entry.1);
    }

    /** The oldest entry makes room. */
    method Insert(key: (nat, nat), matrix: Matrix)
      requires Valid() && IsCodingMatrix(matrix, key.0, key.1)
      modifies this
      ensures Valid()
      ensures entries == (if |old(entries)| == CacheEntries then old(entries)[1..] else old(entries)) + [(key, matrix)]
    {
      hide IsCodingMatrix;
      if |entries| == CacheEntries {
        entries := entries[1..];
      }
      entries := entries + [(key, matrix)];
    }

    method CachedCodingMatrix(dataCount: nat, totalCount: nat) returns (result: Result<Matrix>)
      requires Valid()
      modifies this
      ensures Valid()
      ensures result.Ok? <==> 0 < dataCount <= totalCount <= 256
      ensures result.Err? ==> result.error == InvalidShardCount
      ensures result.Ok? ==> IsCodingMatrix(result.value, dataCount, totalCount)
    {
      hide IsCodingMatrix;
      var key := (dataCount, totalCount);
      var cached := Get(key);
      if cached.Some? {
        CodingMatrixShape(cached.value, dataCount, totalCount);
        return Ok(cached.value);
      }
      result := MakeCodingMatrix(dataCount, totalCount);
      if result.Ok? {
        Insert(key, result.value);
      }
    }
  }

  // ----- Reconstruction

  /** The indices of the shards at hand, in order. */
  function Present(shards: seq<Option<Shard>>): (indices: seq<nat>)
    ensures forall i :: 0 <= i < |indices| ==> indices[i] < |shards| && shards[indices[i]].Some?
    ensures forall i, j :: 0 <= i < j < |indices| ==> indices[i] < indices[j]
    ensures forall r :: 0 <= r < |shards| && shards[r].Some? ==> r in indices
  {
    if |shards| == 0 then []
    else
      var last := |shards| - 1;
      Present(shards[..last]) + if shards[last].Some? then [last] else []
  }

  ghost predicate EvenlySized(shards: seq<Option<Shard>>, size: nat) {
    size > 0 && forall r :: 0 <= r < |shards| && shards[r].Some? ==> |shards[r].value| == size
  }

  /** The outcome, from the inputs alone. `SingularMatrix` is not among the failures. */
  ghost function Verdict(shards: seq<Option<Shard>>, dataCount: nat, requested: seq<nat>): Outcome {
    if !(0 < dataCount < |shards| <= 256) then Failed(InvalidShardCount)
    else if exists t :: 0 <= t < |requested| && requested[t] >= dataCount then Failed(InvalidShardCount)
    else if |Present(shards)| == 0 then Failed(TooFewShards)
    else if !(exists size :: EvenlySized(shards, size)) then Failed(InvalidShardSize)
    else if |Present(shards)| < dataCount then Failed(TooFewShards)
    else Done
  }

  predicate Missing(shards: seq<Option<Shard>>, dataCount: nat, requested: seq<nat>, i: int) {
    0 <= i < |shards| && i < dataCount && shards[i].None? && i in requested
  }

  /** Every present shard is its row of the coding matrix applied to `data`. */
  ghost predicate Encodes(shards: seq<Option<Shard>>, data: seq<Shard>, size: nat) {
    Shaped(data, |data|, size) &&
    exists c ::
      IsCodingMatrix(c, |data|, |shards|) &&
      forall r :: 0 <= r < |shards| && shards[r].Some? ==> shards[r].value == Coded(c[r], data, size)
  }

  /** The common shard size, when there is one. */
  method CommonSize(shards: seq<Option<Shard>>) returns (present: bool, even: bool, size: nat)
    ensures present <==> |Present(shards)| > 0
    ensures present ==> (even <==> exists s :: EvenlySized(shards, s))
    ensures present && even ==> EvenlySized(shards, size)
  {
    var first := 0;
    while first < |shards| && shards[first].None?
      invariant 0 <= first <= |shards|
      invariant forall r :: 0 <= r < first ==> shards[r].None?
    {
      first := first + 1;
    }
    if first == |shards| {
      NonePresent(shards);
      return false, false, 0;
    }
    assert first in Present(shards);
    present, size := true, |shards[first].value|;
    if size == 0 {
      return true, false, 0;
    }
    for r := 0 to |shards|
      invariant forall i :: 0 <= i < r && shards[i].Some? ==> |shards[i].value| == size
    {
      if shards[r].Some? && |shards[r].value| != size {
        return true, false, size;
      }
    }
    assert EvenlySized(shards, size);
    even := true;
  }

  lemma {:induction false} NonePresent(shards: seq<Option<Shard>>)
    requires forall r :: 0 <= r < |shards| ==> shards[r].None?
    ensures Present(shards) == []
  {
    if |shards| > 0 {
      NonePresent(shards[..|shards| - 1]);
    }
  }

  lemma {:induction false} PresentPrefix(shards: seq<Option<Shard>>, n: nat)
    requires n <= |shards|
    ensures Present(shards[..n]) <= Present(shards)
    decreases |shards|
  {
    if n < |shards| {
      var last := |shards| - 1;
      PresentPrefix(shards[..last], n);
      assert shards[..last][..n] == shards[..n];
    } else {
      assert shards[..n] == shards;
    }
  }

  method CollectPresent(shards: seq<Option<Shard>>, limit: nat) returns (selected: seq<nat>)
    ensures |Present(shards)| < limit ==> selected == Present(shards)
    ensures |Present(shards)| >= limit ==> selected == Present(shards)[..limit]
    ensures DistinctIndices(selected, |shards|)
    ensures forall i :: 0 <= i < |selected| ==> shards[selected[i]].Some?
  {
    selected := [];
    var i := 0;
    while i < |shards| && |selected| < limit
      invariant 0 <= i <= |shards|
      invariant selected == Present(shards[..i]) && |selected| <= limit
    {
      assert shards[..i + 1][..i] == shards[..i];
      if shards[i].Some? {
        selected := selected + [i];
      }
      i := i + 1;
    }
    assert shards[..|shards|] == shards;
    PresentPrefix(shards, i);
  }

  /** One recovered shard per missing index, each a decoding row applied to the
      selected shards. */
  method RecoverShards(matrix: Matrix, ghost k: nat, ghost n: nat, selected: seq<nat>, missing: seq<nat>,
                       selectedShards: seq<Shard>, size: nat) returns (recovered: seq<Shard>, ghost rows: Matrix)
    requires IsCodingMatrix(matrix, k, n) && |selected| == k && DistinctIndices(selected, n)
    requires forall t :: 0 <= t < |missing| ==> missing[t] < k
    requires Shaped(selectedShards, k, size)
    ensures |recovered| == |missing| == |rows|
    ensures forall t :: 0 <= t < |missing| ==>
                          DecodesTo(rows[t], Select(matrix, selected), k, missing[t])
                          && recovered[t] == Coded(rows[t], selectedShards, size)
  {
    hide IsCodingMatrix, Coded, Combine, Invertible;
    CodingMatrixShape(matrix, k, n);
    SelectionInvertible(matrix, k, n, selected);
    var decodeRows := InverseRowsForSelected(matrix, selected, missing);
    rows := decodeRows.value;
    recovered := [];
    for t := 0 to |missing|
      invariant |recovered| == t
      invariant forall i :: 0 <= i < t ==> recovered[i] == Coded(rows[i], selectedShards, size)
    {
      var shard := CodeRowSlices(decodeRows.value[t], selectedShards, size);
      recovered := recovered + [shard];
    }
  }

  /** Recovered shards are the original data shards, whatever they were. */
  lemma {:induction false} RecoveredIsOriginal(shards: seq<Option<Shard>>, k: nat, size: nat, matrix: Matrix, selected: seq<nat>,
                            selectedShards: seq<Shard>, row: Row, at: nat, data: seq<Shard>)
    requires IsCodingMatrix(matrix, k, |shards|) && |selected| == k && at < k && size > 0
    requires DistinctIndices(selected, |shards|) && Shaped(selectedShards, k, size)
    requires forall i :: 0 <= i < k ==> shards[selected[i]] == Some(selectedShards[i])
    requires DecodesTo(row, Select(matrix, selected), k, at)
    requires |data| == k && Encodes(shards, data, size)
    ensures Coded(row, selectedShards, size) == data[at]
  {
    hide Dot, Combine, Coded;
    var c :|
      IsCodingMatrix(c, |data|, |shards|) &&
      forall r :: 0 <= r < |shards| && shards[r].Some? ==> shards[r].value == Coded(c[r], data, size);
    CodingMatrixUnique(c, matrix, k, |shards|);
    DecodeRecovers(Select(matrix, selected), k, data, size, selectedShards, row, at);
  }

  /** Every requested missing data shard is rebuilt; nothing else changes. */
  method ReconstructDataIndices(cache: CodingMatrixCache, shards: array<Option<Shard>>, dataCount: nat,
                                requested: seq<nat>) returns (outcome: Outcome)
    requires cache.Valid()
    modifies cache, shards
    ensures cache.Valid()
    ensures outcome == Verdict(old(shards[..]), dataCount, requested)
    ensures forall i :: 0 <= i < shards.Length
                        && !(outcome.Done? && Missing(old(shards[..]), dataCount, requested, i)) ==>
                          shards[i] == old(shards[i])
    ensures outcome.Done? ==> forall i :: Missing(old(shards[..]), dataCount, requested, i) ==> shards[i].Some?
    ensures outcome.Done? ==>
              forall data: seq<Shard>, size, i ::
                |data| == dataCount && size > 0 && Encodes(old(shards[..]), data, size)
                && Missing(old(shards[..]), dataCount, requested, i) ==>
                  shards[i] == Some(data[i])
  {
    hide IsCodingMatrix, Combine, Coded, Present;
    ghost var before := shards[..];
    if dataCount == 0 || shards.Length <= dataCount || shards.Length > 256 {
      return Failed(InvalidShardCount);
    }
    for t := 0 to |requested|
      invariant forall i :: 0 <= i < t ==> requested[i] < dataCount
    {
      if requested[t] >= dataCount {
        return Failed(InvalidShardCount);
      }
    }
    var present, even, size := CommonSize(shards[..]);
    if !present {
      return Failed(TooFewShards);
    }
    if !even {
      return Failed(InvalidShardSize);
    }
    var selected := CollectPresent(shards[..], dataCount);
    if |selected| < dataCount {
      return Failed(TooFewShards);
    }
    var missing := CollectMissing(shards[..], dataCount, requested);
    if missing == [] {
      return Done;
    }
    RebuildMissing(cache, shards, dataCount, selected, missing, size);
    outcome := Done;
  }

  method RebuildMissing(cache: CodingMatrixCache, shards: array<Option<Shard>>, dataCount: nat,
                        selected: seq<nat>, missing: seq<nat>, size: nat)
    requires cache.Valid() && 0 < dataCount < shards.Length <= 256
    requires |selected| == dataCount && DistinctIndices(selected, shards.Length)
    requires EvenlySized(shards[..], size) && forall i :: 0 <= i < |selected| ==> shards[selected[i]].Some?
    requires forall t :: 0 <= t < |missing| ==> missing[t] < dataCount
    requires forall t, u :: 0 <= t < u < |missing| ==> missing[t] < missing[u]
    modifies cache, shards
    ensures cache.Valid()
    ensures forall i :: 0 <= i < shards.Length && i !in missing ==> shards[i] == old(shards[i])
    ensures forall i :: i in missing ==> shards[i].Some?
    ensures forall data: seq<Shard>, s, i ::
              |data| == dataCount && s > 0 && Encodes(old(shards[..]), data, s) && i in missing ==>
                shards[i] == Some(data[i])
  {
    hide IsCodingMatrix, Combine, Coded, DecodesTo, Encodes;
    ghost var before := shards[..];
    var matrix := cache.CachedCodingMatrix(dataCount, shards.Length);
    var held := shards[..];
    var selectedShards := seq(|selected|, i requires 0 <= i < |selected| => held[selected[i]].value);
    var recovered, rows := RecoverShards(matrix.value, dataCount, shards.Length, selected, missing, selectedShards, size);
    for t := 0 to |missing|
      invariant forall i :: 0 <= i < shards.Length && i !in missing ==> shards[i] == before[i]
      invariant forall i :: 0 <= i < t ==> shards[missing[i]] == Some(recovered[i])
      modifies shards
    {
      shards[missing[t]] := Some(recovered[t]);
    }
    forall i | i in missing
      ensures shards[i].Some?
      ensures forall data: seq<Shard>, s ::
                |data| == dataCount && s > 0 && Encodes(before, data, s) ==> shards[i] == Some(data[i])
    {
      var t :| 0 <= t < |missing| && missing[t] == i;
      assert shards[missing[t]] == Some(recovered[t]);
      RecoveredForAll(before, dataCount, size, matrix.value, selected, selectedShards, rows[t], i);
    }
  }

  lemma {:induction false} RecoveredForAll(shards: seq<Option<Shard>>, k: nat, size: nat, matrix: Matrix, selected: seq<nat>,
                        selectedShards: seq<Shard>, row: Row, at: nat)
    requires IsCodingMatrix(matrix, k, |shards|) && |selected| == k && at < k && size > 0
    requires DistinctIndices(selected, |shards|) && Shaped(selectedShards, k, size)
    requires forall i :: 0 <= i < k ==> shards[selected[i]] == Some(selectedShards[i])
    requires DecodesTo(row, Select(matrix, selected), k, at)
    ensures forall data: seq<Shard>, s ::
              |data| == k && s > 0 && Encodes(shards, data, s) ==> Coded(row, selectedShards, size) == data[at]
  {
    hide IsCodingMatrix, Combine, Coded, Encodes;
    forall data: seq<Shard>, s | |data| == k && s > 0 && Encodes(shards, data, s)
      ensures Coded(row, selectedShards, size) == data[at]
    {
      EncodingSize(shards, data, s, selected[0]);
      RecoveredIsOriginal(shards, k, size, matrix, selected, selectedShards, row, at, data);
    }
  }

  lemma {:induction false} EncodingSize(shards: seq<Option<Shard>>, data: seq<Shard>, size: nat, r: nat)
    requires Encodes(shards, data, size) && r < |shards| && shards[r].Some?
    ensures |shards[r].value| == size
  {
    hide Dot;
    var c :|
      IsCodingMatrix(c, |data|, |shards|) &&
      forall r :: 0 <= r < |shards| && shards[r].Some? ==> shards[r].value == Coded(c[r], data, size);
    assert shards[r].value == Coded(c[r], data, size);
  }

  method CollectMissing(shards: seq<Option<Shard>>, dataCount: nat, requested: seq<nat>) returns (missing: seq<nat>)
    requires dataCount <= |shards|
    ensures forall i :: i in missing <==> Missing(shards, dataCount, requested, i)
    ensures forall t :: 0 <= t < |missing| ==> missing[t] < dataCount
    ensures forall i, j :: 0 <= i < j < |missing| ==> missing[i] < missing[j]
  {
    missing := [];
    for i := 0 to dataCount
      invariant forall j :: j in missing <==> j < i && Missing(shards, dataCount, requested, j)
      invariant forall a :: 0 <= a < |missing| ==> missing[a] < i
      invariant forall a, b :: 0 <= a < b < |missing| ==> missing[a] < missing[b]
    {
      if shards[i].None? && i in requested {
        missing := missing + [i];
      }
    }
  }
}
