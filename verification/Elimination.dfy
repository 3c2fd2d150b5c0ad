/** In-place Gauss-Jordan elimination, with its kernel as the invariant. */
module Elimination {
  import opened GaloisField
  import opened Matrices

  datatype ReedSolomonError = InvalidShardCount | InvalidShardSize | TooFewShards | SingularMatrix

  datatype Result<+T> = Ok(value: T) | Err(error: ReedSolomonError)

  datatype Outcome = Done | Failed(error: ReedSolomonError)

  /** What the source requires of the work area: `size` rows, all equally wide. */
  ghost predicate WellShaped(m: Matrix, size: nat) {
    && size > 0
    && |m| == size
    && size <= |m[0]|
    && forall r :: 0 <= r < size ==> |m[r]| == |m[0]|
  }

  /** The first `d` columns have ones on the diagonal and zeros below it. */
  ghost predicate Triangular(m: Matrix, size: nat, columns: nat, d: nat)
    requires Shaped(m, size, columns) && d <= size <= columns
  {
    forall r, c :: 0 <= c < d && c <= r < size ==> m[r][c] == if r == c then One else Zero
  }

  /** Triangular, and the first `d` columns are already those of the identity. */
  ghost predicate Cleared(m: Matrix, size: nat, columns: nat, d: nat)
    requires Shaped(m, size, columns) && d <= size <= columns
  {
    && Triangular(m, size, columns, size)
    && forall r, c :: 0 <= c < d && 0 <= r < size ==> m[r][c] == if r == c then One else Zero
  }

  lemma {:induction false} SameKernelTrans(a: Matrix, b: Matrix, c: Matrix, rows: nat, columns: nat)
    requires SameKernel(a, b, rows, columns) && SameKernel(b, c, rows, columns)
    ensures SameKernel(a, c, rows, columns)
  {
    hide Dot, InKernel;
  }

  method ScaleRowInPlace(work: array<Row>, at: nat, scale: Byte)
    requires at < work.Length
    modifies work
    ensures work[..] == old(work[..])[at := ScaleRow(scale, old(work[at]))]
  {
    hide Mul;
    ghost var before := work[..];
    ghost var row := work[at];
    for j := 0 to |work[at]|
      invariant |work[at]| == |row|
      invariant work[..] == before[at := work[at]]
      invariant forall i :: 0 <= i < j ==> work[at][i] == Mul(row[i], scale)
      invariant forall i :: j <= i < |row| ==> work[at][i] == row[i]
    {
      var product := GfMul(work[at][j], scale);
      work[at] := work[at][j := product];
    }
    assert work[at] == ScaleRow(scale, row);
  }

  method AddScaledRowInPlace(work: array<Row>, target: nat, scale: Byte, source: nat)
    requires target < work.Length && source < work.Length && target != source
    requires |work[target]| == |work[source]|
    modifies work
    ensures work[..] == old(work[..])[target := AddScaledRow(old(work[target]), scale, old(work[source]))]
  {
    hide Mul, Add;
    ghost var before := work[..];
    ghost var row, from := work[target], work[source];
    for j := 0 to |work[target]|
      invariant |work[target]| == |row| && work[source] == from
      invariant work[..] == before[target := work[target]]
      invariant forall i :: 0 <= i < j ==> work[target][i] == Add(row[i], Mul(scale, from[i]))
      invariant forall i :: j <= i < |row| ==> work[target][i] == row[i]
    {
      var product := GfMul(scale, work[source][j]);
      work[target] := work[target][j := Add(work[target][j], product)];
    }
    assert work[target] == AddScaledRow(row, scale, from);
  }

  /** Clears column `d` below the diagonal. */
  method EliminateBelow(work: array<Row>, size: nat, ghost columns: nat, d: nat)
    requires d < size <= columns && Shaped(work[..], size, columns)
    requires Triangular(work[..], size, columns, d) && work[d][d] == One
    modifies work
    ensures SameKernel(old(work[..]), work[..], size, columns)
    ensures Triangular(work[..], size, columns, d + 1)
  {
    hide Mul, Add, Dot, InKernel;
    ghost var before := work[..];
    for row := d + 1 to size
      invariant SameKernel(before, work[..], size, columns)
      invariant Triangular(work[..], size, columns, d) && work[d][d] == One
      invariant forall r :: d < r < row ==> work[r][d] == Zero
    {
      var scale := work[row][d];
      if scale != Zero {
        ghost var m := work[..];
        AddKeepsKernel(m, size, columns, row, scale, d);
        EntriesAfterAdd(m[row], scale, m[d], d);
        AddScaledRowInPlace(work, row, scale, d);
        SameKernelTrans(before, m, work[..], size, columns);
      }
    }
  }

  /** Clears column `d` above the diagonal. */
  method EliminateAbove(work: array<Row>, size: nat, ghost columns: nat, d: nat)
    requires d < size <= columns && Shaped(work[..], size, columns)
    requires Cleared(work[..], size, columns, d)
    modifies work
    ensures SameKernel(old(work[..]), work[..], size, columns)
    ensures Cleared(work[..], size, columns, d + 1)
  {
    hide Mul, Add, Dot, InKernel;
    ghost var before := work[..];
    for row := 0 to d
      invariant SameKernel(before, work[..], size, columns)
      invariant Cleared(work[..], size, columns, d)
      invariant forall r :: 0 <= r < row ==> work[r][d] == Zero
    {
      var scale := work[row][d];
      if scale != Zero {
        ghost var m := work[..];
        AddKeepsKernel(m, size, columns, row, scale, d);
        EntriesAfterAdd(m[row], scale, m[d], d);
        AddScaledRowInPlace(work, row, scale, d);
        SameKernelTrans(before, m, work[..], size, columns);
      }
    }
  }

  /** Adding a multiple of a row that is zero in a column leaves that column;
      at the pivot the entry is cancelled when the multiple is the entry itself. */
  lemma {:induction false} EntriesAfterAdd(target: Row, scale: Byte, source: Row, d: nat)
    requires |target| == |source| && d < |target| && source[d] == One && scale == target[d]
    ensures forall c :: 0 <= c < |target| && source[c] == Zero ==>
                          AddScaledRow(target, scale, source)[c] == target[c]
    ensures AddScaledRow(target, scale, source)[d] == Zero
  {
    hide Mul, Add;
    MulZero(scale);
    MulOne(scale);
    AddSelf(scale);
    forall c | 0 <= c < |target| && source[c] == Zero
      ensures AddScaledRow(target, scale, source)[c] == target[c]
    {
      AddZero(target[c]);
    }
  }

  /** Brings a nonzero entry to the diagonal and scales it to one. */
  method Pivot(work: array<Row>, size: nat, ghost columns: nat, d: nat) returns (found: bool)
    requires d < size <= columns && Shaped(work[..], size, columns)
    requires Triangular(work[..], size, columns, d)
    modifies work
    ensures SameKernel(old(work[..]), work[..], size, columns)
    ensures Triangular(work[..], size, columns, d)
    ensures found ==> work[d][d] == One
    ensures !found ==> forall r :: d <= r < size ==> work[r][d] == Zero
  {
    hide Mul, Add, Dot, InKernel;
    ghost var before := work[..];
    if work[d][d] == Zero {
      var replacement := d + 1;
      while replacement < size && work[replacement][d] == Zero
        invariant d + 1 <= replacement <= size
        invariant forall r :: d <= r < replacement ==> work[r][d] == Zero
      {
        replacement := replacement + 1;
      }
      if replacement == size {
        return false;
      }
      SwapKeepsKernel(before, size, columns, d, replacement);
      work[d], work[replacement] := work[replacement], work[d];
      assert work[..] == before[d := before[replacement]][replacement := before[d]];
    }
    ghost var swapped := work[..];
    var pivot := work[d][d];
    if pivot != One {
      var scale := GfDiv(One, pivot);
      ScaleOfPivot(swapped[d], d, scale);
      ScaleKeepsKernel(swapped, size, columns, d, scale);
      ScaleRowInPlace(work, d, scale);
      SameKernelTrans(before, swapped, work[..], size, columns);
    }
    found := true;
  }

  lemma {:induction false} ScaleOfPivot(row: Row, d: nat, scale: Byte)
    requires d < |row| && Mul(scale, row[d]) == One
    ensures scale != Zero
    ensures ScaleRow(scale, row)[d] == One
    ensures forall c :: 0 <= c < |row| && row[c] == Zero ==> ScaleRow(scale, row)[c] == Zero
  {
    hide Mul;
    MulComm(scale, row[d]);
    MulZero(row[d]);
    MulZero(scale);
  }

  /** Succeeds exactly on well-shaped work areas whose left block is invertible;
      then the left block has become the identity and the kernel is unchanged. */
  method GaussJordan(work: array<Row>, size: nat) returns (outcome: Outcome)
    modifies work
    ensures outcome.Failed? ==> outcome.error == SingularMatrix
    ensures outcome.Done? <==>
            (WellShaped(old(work[..]), size) && Independent(old(work[..]), size, |old(work[..])[0]|))
    ensures outcome.Done? ==> var columns := |old(work[..])[0]|;
                              && SameKernel(old(work[..]), work[..], size, columns)
                              && LeftIdentity(work[..], size, columns)
  {
    hide Mul, Add, Dot, InKernel;
    if size == 0 || work.Length != size {
      return Failed(SingularMatrix);
    }
    var columns := |work[0]|;
    if columns < size {
      return Failed(SingularMatrix);
    }
    for row := 0 to size
      invariant forall r :: 0 <= r < row ==> |work[r]| == columns
    {
      if |work[row]| != columns {
        return Failed(SingularMatrix);
      }
    }

    ghost var before := work[..];
    SameKernelRefl(before, size, columns);
    for diagonal := 0 to size
      invariant SameKernel(before, work[..], size, columns)
      invariant Triangular(work[..], size, columns, diagonal)
    {
      ghost var m := work[..];
      var found := Pivot(work, size, columns, diagonal);
      SameKernelTrans(before, m, work[..], size, columns);
      if !found {
        DependentColumn(work[..], size, columns, diagonal);
        IndependenceFollowsKernel(before, work[..], size, columns);
        return Failed(SingularMatrix);
      }
      ghost var pivoted := work[..];
      EliminateBelow(work, size, columns, diagonal);
      SameKernelTrans(before, pivoted, work[..], size, columns);
    }

    for diagonal := 0 to size
      invariant SameKernel(before, work[..], size, columns)
      invariant Cleared(work[..], size, columns, diagonal)
    {
      ghost var m := work[..];
      EliminateAbove(work, size, columns, diagonal);
      SameKernelTrans(before, m, work[..], size, columns);
    }

    IdentityIsIndependent(work[..], size, columns);
    IndependenceFollowsKernel(before, work[..], size, columns);
    outcome := Done;
  }

  lemma {:induction false} SameKernelRefl(m: Matrix, rows: nat, columns: nat)
    requires Shaped(m, rows, columns)
    ensures SameKernel(m, m, rows, columns)
  {}

  lemma {:induction false} IndependenceFollowsKernel(a: Matrix, b: Matrix, size: nat, columns: nat)
    requires size <= columns && SameKernel(a, b, size, columns)
    ensures Independent(a, size, columns) <==> Independent(b, size, columns)
  {
    hide Dot, InKernel;
    forall v: Row
      ensures InKernelOfLeft(a, v, size, columns) <==> InKernelOfLeft(b, v, size, columns)
    {
    }
  }

  lemma {:induction false} IdentityIsIndependent(m: Matrix, size: nat, columns: nat)
    requires size <= columns && Shaped(m, size, columns) && LeftIdentity(m, size, columns)
    ensures Independent(m, size, columns)
  {
    hide Mul, Add, Dot;
    forall v: Row | InKernelOfLeft(m, v, size, columns)
      ensures forall j :: 0 <= j < columns ==> v[j] == Zero
    {
      forall j | 0 <= j < size
        ensures v[j] == Zero
      {
        var left, right := v[..size], v[size..];
        assert v == left + right;
        DotConcat(m[j], left, right, columns);
        DotUnit(m[j][..size], left, size, j);
        DotComm(m[j][size..], right, columns - size);
        DotZero(right, m[j][size..], columns - size);
        AddZero(left[j]);
        assert Dot(m[j], v, |v|) == Zero;
      }
    }
  }

  /** A column without a pivot is a combination of the columns before it. */
  lemma {:induction false} DependentColumn(m: Matrix, size: nat, columns: nat, d: nat)
    requires d < size <= columns && Shaped(m, size, columns)
    requires Triangular(m, size, columns, d)
    requires forall r :: d <= r < size ==> m[r][d] == Zero
    ensures !Independent(m, size, columns)
  {
    hide Mul, Add, Dot;
    var unit := UnitRow(columns, d);
    forall r | d <= r < size
      ensures Dot(m[r], unit, columns) == Zero
    {
      DotComm(m[r], unit, columns);
      DotUnit(unit, m[r], columns, d);
    }
    var v := BackSubstitute(m, size, columns, d, d, unit);
    assert InKernelOfLeft(m, v, size, columns);
    assert v[d] != Zero;
  }

  lemma {:induction false} BackSubstitute(m: Matrix, size: nat, columns: nat, d: nat, k: nat, v: Row)
      returns (u: Row)
    requires k <= d < size <= columns && Shaped(m, size, columns) && |v| == columns
    requires Triangular(m, size, columns, d)
    requires v[d] == One && forall j :: 0 <= j < k || d < j < columns ==> v[j] == Zero
    requires forall r :: k <= r < size ==> Dot(m[r], v, columns) == Zero
    ensures |u| == columns && u[d] == One && forall j :: d < j < columns ==> u[j] == Zero
    ensures InKernel(m, u)
    decreases k
  {
    hide Mul, Add, Dot;
    if k == 0 {
      return v;
    }
    var value := Dot(m[k - 1], v, columns);
    var next := v[k - 1 := value];
    forall r | k - 1 <= r < size
      ensures Dot(m[r], next, columns) == Zero
    {
      DotUpdate(m[r], v, columns, k - 1, value);
      if r == k - 1 {
        MulOne(value);
        AddSelf(value);
      } else {
        MulZero(value);
        AddZero(Zero);
      }
    }
    u := BackSubstitute(m, size, columns, d, k - 1, next);
  }

  /** Dotting with a solution candidate extended by a unit row. */
  lemma {:induction false} DotExtended(row: Row, solution: Row, columns: nat, t: nat)
    requires |row| == columns && |solution| + t < columns
    ensures Dot(row, solution + UnitRow(columns - |solution|, t), columns)
            == Add(Dot(row[..|solution|], solution, |solution|), row[|solution| + t])
  {
    hide Mul, Add, Dot;
    var size := |solution|;
    var unit := UnitRow(columns - size, t);
    DotConcat(row, solution, unit, columns);
    DotComm(row[size..], unit, columns - size);
    DotUnit(unit, row[size..], columns - size, t);
  }

  lemma {:induction false} SolutionInKernel(end: Matrix, size: nat, columns: nat, t: nat)
    requires size <= columns && Shaped(end, size, columns) && LeftIdentity(end, size, columns)
    requires size + t < columns
    ensures InKernel(end, Column(end, size + t) + UnitRow(columns - size, t))
  {
    hide Mul, Add, Dot;
    var solution := Column(end, size + t);
    forall c | 0 <= c < size
      ensures Dot(end[c], solution + UnitRow(columns - size, t), columns) == Zero
    {
      DotExtended(end[c], solution, columns, t);
      DotUnit(end[c][..size], solution, size, c);
      AddSelf(solution[c]);
    }
  }

  /** With an identity on the left, the right block solves the original system. */
  lemma {:induction false} RightBlockSolves(start: Matrix, end: Matrix, size: nat, columns: nat, r: nat, t: nat)
    requires Shaped(start, size, columns) && Shaped(end, size, columns)
    requires size <= columns && SameKernel(start, end, size, columns) && LeftIdentity(end, size, columns)
    requires r < size && size + t < columns
    ensures Dot(start[r][..size], Column(end, size + t), size) == start[r][size + t]
  {
    hide Mul, Add, Dot, Column, LeftIdentity, SameKernel, InKernel, UnitRow;
    var solution := Column(end, size + t);
    var v := solution + UnitRow(columns - size, t);
    SolutionInKernel(end, size, columns, t);
    KernelEntry(start, end, size, columns, v, r);
    DotExtended(start[r], solution, columns, t);
    AddCancel(Dot(start[r][..size], solution, size), start[r][size + t]);
  }

  lemma {:induction false} KernelEntry(a: Matrix, b: Matrix, rows: nat, columns: nat, v: Row, r: nat)
    requires SameKernel(a, b, rows, columns) && |v| == columns && InKernel(b, v) && r < rows
    ensures Dot(a[r], v, columns) == Zero
  {
    hide Dot;
    assert InKernel(a, v);
  }
}
